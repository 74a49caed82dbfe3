/** The `usage` stream: one request to `GET /usage` for the whole window, then, for every day
    the cursor rule keeps, one record per resource for each region that reports a positive
    amount of it, followed by the day's four global records. */
module Usage {
  import opened Values
  import opened Records
  import opened Messages
  import opened Api
  import opened Paging
  import Base

  const Name: string := "usage"
  const ErrorPrefix: string := "Error syncing usage: "
  const Completed: string := "Completed sync for usage stream"

  /** The region of the per-day totals. */
  const GlobalRegion: string := "global"

  /** The resource kinds of a day, in the order records are emitted. */
  const Resources: seq<Resource> := [ParticipantMinutes, RecordingMinutes, EgressBandwidth, IngressBandwidth]

  // ---------------------------------------------------------------------------------------------
  // Resources and identifiers

  /** The `type` of a resource: its field name in the response and its `resource_type`. */
  function ResourceName(t: Resource): string {
    match t
    case ParticipantMinutes => "participant_minutes"
    case RecordingMinutes => "recording_minutes"
    case EgressBandwidth => "egress_bandwidth"
    case IngressBandwidth => "ingress_bandwidth"
  }

  /** The `unit` of a resource: minutes for the two durations, GB for the two bandwidths. */
  function UnitOf(t: Resource): (u: Unit)
    ensures u == Minutes <==> t == ParticipantMinutes || t == RecordingMinutes
    ensures u == Gigabytes <==> t == EgressBandwidth || t == IngressBandwidth
  {
    match t
    case ParticipantMinutes => Minutes
    case RecordingMinutes => Minutes
    case EgressBandwidth => Gigabytes
    case IngressBandwidth => Gigabytes
  }

  /** `counters[type]`: the amount a day or a region reports for a resource. */
  function Amount(c: Counters, t: Resource): Option<real> {
    match t
    case ParticipantMinutes => c.participantMinutes
    case RecordingMinutes => c.recordingMinutes
    case EgressBandwidth => c.egressBandwidth
    case IngressBandwidth => c.ingressBandwidth
  }

  /** `regionData[type] && regionData[type] > 0`: the region reports a positive amount. */
  predicate Positive(c: Counters, t: Resource) {
    Amount(c, t).Some? && Amount(c, t).value > 0.0
  }

  /** The string `generateUsageId` hashes: date, resource type and region joined by colons. */
  function UsageKey(date: string, t: Resource, region: string): string {
    Colon(date, Colon(ResourceName(t), region))
  }

  /** `generateUsageId`: the first 32 hexadecimal characters of the SHA-256 of the key. */
  function UsageId(date: string, t: Resource, region: string, env: Env): (id: string)
    ensures |id| == 32
    ensures forall i | 0 <= i < |id| :: IsHexDigit(id[i])
    ensures id == env.sha256(UsageKey(date, t, region))[..32]
  {
    var digest := env.sha256(UsageKey(date, t, region));
    digest[..32]
  }

  lemma ResourceNameFacts(s: Resource, t: Resource)
    ensures ':' !in ResourceName(s)
    ensures ResourceName(s) == ResourceName(t) ==> s == t
  {
  }

  /** Distinct (date, resource, region) give distinct keys when the date contains no colon;
      the region name may contain any character. */
  lemma UsageKeyInjective(d1: string, t1: Resource, r1: string, d2: string, t2: Resource, r2: string)
    requires ':' !in d1 && ':' !in d2
    requires UsageKey(d1, t1, r1) == UsageKey(d2, t2, r2)
    ensures d1 == d2 && t1 == t2 && r1 == r2
  {
    ResourceNameFacts(t1, t2);
    ResourceNameFacts(t2, t1);
    SplitColon(d1, Colon(ResourceName(t1), r1), d2, Colon(ResourceName(t2), r2));
    SplitColon(ResourceName(t1), r1, ResourceName(t2), r2);
  }

  // ---------------------------------------------------------------------------------------------
  // Records of a day

  /** The record of one resource in one region. */
  function RegionalRecord(date: string, timestamp: Epoch, t: Resource, region: RegionUsage, env: Env): UsageRecord
  {
    var c := region.counters;
    UsageRecord(
      usageId := UsageId(date, t, region.name, env),
      timestamp := timestamp,
      date := date,
      resourceType := t,
      unit := UnitOf(t),
      quantity := OrZero(Amount(c, t)),
      roomCount := OrZero(c.roomCount),
      participantCount := OrZero(c.participantCount),
      participantMinutes := OrZero(c.participantMinutes),
      recordingMinutes := OrZero(c.recordingMinutes),
      egressBandwidth := OrZero(c.egressBandwidth),
      ingressBandwidth := OrZero(c.ingressBandwidth),
      region := region.name)
  }

  /** The global record of one resource: the day's totals, with `|| 0` for absent amounts. */
  function GlobalRecord(day: DayUsage, timestamp: Epoch, t: Resource, env: Env): UsageRecord
  {
    var c := day.totals;
    UsageRecord(
      usageId := UsageId(day.date, t, GlobalRegion, env),
      timestamp := timestamp,
      date := day.date,
      resourceType := t,
      unit := UnitOf(t),
      quantity := OrZero(Amount(c, t)),
      roomCount := OrZero(c.roomCount),
      participantCount := OrZero(c.participantCount),
      participantMinutes := OrZero(c.participantMinutes),
      recordingMinutes := OrZero(c.recordingMinutes),
      egressBandwidth := OrZero(c.egressBandwidth),
      ingressBandwidth := OrZero(c.ingressBandwidth),
      region := GlobalRegion)
  }

  /** The fields every usage record copies from a set of counters: the room and participant
      counts and the four amounts, each `|| 0`. */
  predicate CarriesCounters(r: UsageRecord, c: Counters) {
    && ZeroDefault(c.roomCount, r.roomCount)
    && ZeroDefault(c.participantCount, r.participantCount)
    && ZeroDefault(c.participantMinutes, r.participantMinutes)
    && ZeroDefault(c.recordingMinutes, r.recordingMinutes)
    && ZeroDefault(c.egressBandwidth, r.egressBandwidth)
    && ZeroDefault(c.ingressBandwidth, r.ingressBandwidth)
  }

  /** A regional record is stamped with the day, the resource and the region's name; its
      quantity is the region's own positive amount, and its counters are the region's. */
  lemma RegionalRecordFields(date: string, timestamp: Epoch, t: Resource, region: RegionUsage, env: Env)
    requires Positive(region.counters, t)
    ensures var r := RegionalRecord(date, timestamp, t, region, env);
      && r.usageId == UsageId(date, t, region.name, env) && r.region == region.name
      && r.date == date && r.timestamp == timestamp && r.resourceType == t && r.unit == UnitOf(t)
      && r.quantity == Amount(region.counters, t).value && r.quantity > 0.0
      && CarriesCounters(r, region.counters)
  {
  }

  /** A global record is stamped with the day, the resource and the region `global`; its
      quantity is the day's total of the resource `|| 0`, and its counters are the day's. */
  lemma GlobalRecordFields(day: DayUsage, timestamp: Epoch, t: Resource, env: Env)
    ensures var r := GlobalRecord(day, timestamp, t, env);
      && r.usageId == UsageId(day.date, t, GlobalRegion, env) && r.region == GlobalRegion
      && r.date == day.date && r.timestamp == timestamp && r.resourceType == t && r.unit == UnitOf(t)
      && ZeroDefault(Amount(day.totals, t), r.quantity)
      && CarriesCounters(r, day.totals)
  {
  }

  /** The inner `for (const resource of resourceTypes)` of a region, over the resources `ts`. */
  function RegionRecords(date: string, timestamp: Epoch, region: RegionUsage, env: Env, ts: seq<Resource>): seq<UsageRecord> {
    if ts == [] then []
    else
      var t := ts[|ts| - 1];
      RegionRecords(date, timestamp, region, env, ts[..|ts| - 1])
        + (if Positive(region.counters, t) then [RegionalRecord(date, timestamp, t, region, env)] else [])
  }

  /** The `for (const region in regions)` loop, over the regions in key order. */
  function RegionsRecords(date: string, timestamp: Epoch, regions: seq<RegionUsage>, env: Env): seq<UsageRecord> {
    if regions == [] then []
    else
      RegionsRecords(date, timestamp, regions[..|regions| - 1], env)
        + RegionRecords(date, timestamp, regions[|regions| - 1], env, Resources)
  }

  /** The global records of a day, over the resources `ts`. */
  function GlobalRecords(day: DayUsage, timestamp: Epoch, env: Env, ts: seq<Resource>): seq<UsageRecord> {
    seq(|ts|, i requires 0 <= i < |ts| => GlobalRecord(day, timestamp, ts[i], env))
  }

  /** `dayUsage.regions || {}` */
  function RegionsOf(day: DayUsage): seq<RegionUsage> {
    day.regions.GetOr([])
  }

  /** Everything a kept day emits: the regional records, then the four global ones. */
  function DayRecords(day: DayUsage, timestamp: Epoch, env: Env): seq<UsageRecord> {
    RegionsRecords(day.date, timestamp, RegionsOf(day), env) + GlobalRecords(day, timestamp, env, Resources)
  }

  /** The RECORD lines of a sequence of usage records. */
  function Lines(recs: seq<UsageRecord>): seq<Message> {
    seq(|recs|, i requires 0 <= i < |recs| => RecordMessage(Name, UsageRec(recs[i])))
  }

  lemma LinesAppend(a: seq<UsageRecord>, b: seq<UsageRecord>)
    ensures Lines(a + b) == Lines(a) + Lines(b)
  {
  }

  /** Writing the line of one more record after the lines of `recs`. */
  lemma LinesSnoc(before: seq<Message>, recs: seq<UsageRecord>, r: UsageRecord)
    ensures before + Lines(recs) + [RecordMessage(Name, UsageRec(r))] == before + Lines(recs + [r])
  {
    LinesAppend(recs, [r]);
    assert Lines([r]) == [RecordMessage(Name, UsageRec(r))];
  }

  /** `moment(date, 'YYYY-MM-DD').valueOf()` of a day. */
  function DayTime(day: DayUsage, env: Env): Epoch {
    env.parseDay(day.date)
  }

  /** One turn of `for (const dayUsage of dailyUsage)`: a day the cursor rule drops emits
      nothing; any other emits its records and advances the watermark to its timestamp. */
  function DayStep(env: Env): (int, DayUsage) -> Emission {
    (wm: int, day: DayUsage) =>
      var timestamp := DayTime(day, env);
      if Skips(timestamp, wm) then Emission([], wm)
      else Emission(Lines(DayRecords(day, timestamp, env)), Advance(wm, timestamp))
  }

  // ---------------------------------------------------------------------------------------------
  // A run

  /** The parameters of `GET /usage`: the window from the start date to today, unpaged. */
  function UsageQuery(from: JsValue, to: string): Query {
    Query(from, Some(to), None, None, None)
  }

  /** `(response.data || {}).daily || []` */
  function Days(data: Option<RawUsage>): seq<DayUsage> {
    data.GetOr(RawUsage(None)).daily.GetOr([])
  }

  function Head(from: JsValue, env: Env): seq<Message> {
    [InfoLog("Starting sync for usage stream"),
     InfoLog("Fetching usage data from " + Display(from, env.showNumber) + " to " + env.today)]
  }

  /** What a `read()` of the usage stream writes and returns. */
  /** The one request of a run. */
  function Fetch(api: Api, env: Env, config: map<string, JsValue>, state: StreamState): Result<Option<RawUsage>, JsError> {
    api.usage(UsageQuery(Base.StartDate(config, state, env), env.today))
  }

  function UsageRun(api: Api, env: Env, config: map<string, JsValue>, state: StreamState): Run {
    var from := Base.StartDate(config, state, env);
    var response := Fetch(api, env, config, state);
    if response.Failure? then
      Close(Name, ErrorPrefix, Completed, Head(from, env), PriorWatermark(state), Some(response.error), state)
    else
      var e := Scan(DayStep(env), PriorWatermark(state), Days(response.value));
      Close(Name, ErrorPrefix, Completed, Head(from, env) + e.out, e.wm, None, state)
  }

  class UsageStream {
    const base: Base.BaseStream
    const cursorField: string := CursorField

    predicate Valid()
      reads base
    {
      base.streamName == Name
    }

    constructor (config: map<string, JsValue>, streamConfig: JsValue, state: Option<StreamState>)
      ensures Valid() && fresh(base)
      ensures base.config == config && base.streamConfig == streamConfig
      ensures base.state == (if state.Some? then state.value else map[])
      ensures base.output == []
    {
      var b := new Base.BaseStream("UsageStream", config, streamConfig, state);
      b.streamName := Name;
      base := b;
    }

    function SourceDefinedPrimaryKey(): (key: seq<seq<string>>)
      ensures key == [["usage_id"]]
    {
      [["usage_id"]]
    }

    function DefaultCursorField(): (field: seq<string>)
      ensures field == Base.DefaultCursorField()
    {
      [cursorField]
    }

    /** The resource loop of one region: a record for each resource it reports a positive
        amount of. */
    method EmitRegion(env: Env, date: string, timestamp: Epoch, region: RegionUsage)
      requires Valid()
      modifies base`output
      ensures Valid()
      ensures base.output == old(base.output) + Lines(RegionRecords(date, timestamp, region, env, Resources))
    {
      for i := 0 to |Resources|
        invariant base.output == old(base.output) + Lines(RegionRecords(date, timestamp, region, env, Resources[..i]))
      {
        var resource := Resources[i];
        assert Resources[..i + 1][..i] == Resources[..i];
        RegionRecordsSnoc(date, timestamp, region, env, Resources[..i + 1]);
        var amount := Amount(region.counters, resource);
        if amount.Some? && amount.value > 0.0 {
          var record := RegionalRecord(date, timestamp, resource, region, env);
          LinesSnoc(old(base.output), RegionRecords(date, timestamp, region, env, Resources[..i]), record);
          base.EmitRecord(UsageRec(record));
        } else {
          assert RegionRecords(date, timestamp, region, env, Resources[..i + 1])
              == RegionRecords(date, timestamp, region, env, Resources[..i]);
        }
      }
      assert Resources[..|Resources|] == Resources;
    }

    /** The region loop of one day. */
    method EmitRegions(env: Env, date: string, timestamp: Epoch, regions: seq<RegionUsage>)
      requires Valid()
      modifies base`output
      ensures Valid()
      ensures base.output == old(base.output) + Lines(RegionsRecords(date, timestamp, regions, env))
    {
      for i := 0 to |regions|
        invariant base.output == old(base.output) + Lines(RegionsRecords(date, timestamp, regions[..i], env))
      {
        assert regions[..i + 1][..i] == regions[..i];
        LinesAppend(RegionsRecords(date, timestamp, regions[..i], env),
                    RegionRecords(date, timestamp, regions[i], env, Resources));
        EmitRegion(env, date, timestamp, regions[i]);
      }
      assert regions[..|regions|] == regions;
    }

    /** The four global records of one day. */
    method EmitGlobals(env: Env, day: DayUsage, timestamp: Epoch)
      requires Valid()
      modifies base`output
      ensures Valid()
      ensures base.output == old(base.output) + Lines(GlobalRecords(day, timestamp, env, Resources))
    {
      for i := 0 to |Resources|
        invariant base.output == old(base.output) + Lines(GlobalRecords(day, timestamp, env, Resources[..i]))
      {
        var record := GlobalRecord(day, timestamp, Resources[i], env);
        assert Resources[..i + 1] == Resources[..i] + [Resources[i]];
        GlobalRecordsSnoc(day, timestamp, env, Resources[..i], Resources[i]);
        LinesSnoc(old(base.output), GlobalRecords(day, timestamp, env, Resources[..i]), record);
        base.EmitRecord(UsageRec(record));
      }
      assert Resources[..|Resources|] == Resources;
    }

    /** A day the cursor rule keeps: its regional records, region by region, then its four
        global records. */
    method EmitDay(env: Env, day: DayUsage, timestamp: Epoch)
      requires Valid()
      modifies base`output
      ensures Valid()
      ensures base.output == old(base.output) + Lines(DayRecords(day, timestamp, env))
    {
      ghost var regional := RegionsRecords(day.date, timestamp, RegionsOf(day), env);
      ghost var globals := GlobalRecords(day, timestamp, env, Resources);
      EmitRegions(env, day.date, timestamp, RegionsOf(day));
      EmitGlobals(env, day, timestamp);
      LinesAppend(regional, globals);
      Assoc(old(base.output), Lines(regional), Lines(globals));
    }

    /** The `for (const dayUsage of dailyUsage)` loop. */
    method EmitDays(env: Env, days: seq<DayUsage>, wm: int) returns (latestTimestamp: int)
      requires Valid()
      modifies base`output
      ensures Valid()
      ensures var e := Scan(DayStep(env), wm, days);
        base.output == old(base.output) + e.out && latestTimestamp == e.wm
    {
      latestTimestamp := wm;
      for i := 0 to |days|
        invariant base.output == old(base.output) + Scan(DayStep(env), wm, days[..i]).out
        invariant latestTimestamp == Scan(DayStep(env), wm, days[..i]).wm
      {
        ScanExtend(DayStep(env), wm, days, i, old(base.output));
        var day := days[i];
        var timestamp := env.parseDay(day.date);
        if timestamp.Ms? && timestamp.ms <= latestTimestamp && latestTimestamp > 0 {
          continue;
        }
        EmitDay(env, day, timestamp);
        if timestamp.Ms? && timestamp.ms > latestTimestamp {
          latestTimestamp := timestamp.ms;
        }
      }
      assert days[..|days|] == days;
    }

    /** `read()`: the method writes exactly the lines of `UsageRun` and returns its result. */
    method Read(api: Api, env: Env) returns (result: Result<StreamState, JsError>)
      requires Valid()
      modifies base`output
      ensures Valid()
      ensures var run := UsageRun(api, env, base.config, base.state);
        base.output == old(base.output) + run.out && result == run.result
    {
      var state := base.state;
      base.EmitLog("INFO", "Starting sync for usage stream");
      var startDate := Base.StartDate(base.config, state, env);
      var endDate := env.today;
      base.EmitLog("INFO", "Fetching usage data from " + Display(startDate, env.showNumber) + " to " + endDate);
      assert base.output == old(base.output) + Head(startDate, env);
      var response := api.usage(UsageQuery(startDate, endDate));
      if response.Failure? {
        base.EmitLog("ERROR", ErrorPrefix + response.error.message);
        result := Failure(response.error);
      } else {
        var usageData := response.value.GetOr(RawUsage(None));
        var latestTimestamp := EmitDays(env, usageData.daily.GetOr([]), PriorWatermark(state));
        ghost var e := Scan(DayStep(env), PriorWatermark(state), Days(response.value));
        result := base.Conclude(Completed, state, latestTimestamp);
        Assoc(old(base.output), Head(startDate, env), e.out);
        FinishAppends(Name, Completed, Head(startDate, env) + e.out, e.wm, state);
        Assoc(old(base.output), Head(startDate, env) + e.out, Finish(Name, Completed, [], e.wm, state).out);
      }
    }
  }

  // ---------------------------------------------------------------------------------------------
  // Properties of a day

  /** The resources among `ts` a region reports a positive amount of. */
  function PositiveKinds(c: Counters, ts: seq<Resource>): set<Resource> {
    set t | t in ts && Positive(c, t)
  }

  /** How many regional records the regions of a day give rise to. */
  function RegionalCount(regions: seq<RegionUsage>): nat {
    if regions == [] then 0
    else RegionalCount(regions[..|regions| - 1]) + |PositiveKinds(regions[|regions| - 1].counters, Resources)|
  }

  predicate DistinctResources(ts: seq<Resource>) {
    forall i, j | 0 <= i < j < |ts| :: ts[i] != ts[j]
  }

  /** The keys of an object's `regions` map are distinct. */
  predicate DistinctNames(regions: seq<RegionUsage>) {
    forall i, j | 0 <= i < j < |regions| :: regions[i].name != regions[j].name
  }

  /** No two records share a region and a resource. */
  predicate DistinctPairs(recs: seq<UsageRecord>) {
    forall i, j | 0 <= i < j < |recs| ::
      recs[i].region != recs[j].region || recs[i].resourceType != recs[j].resourceType
  }

  /** Each record is the regional record, in `region`, of a resource among `ts` that the region
      reports a positive amount of. */
  predicate FromRegion(recs: seq<UsageRecord>, date: string, timestamp: Epoch, region: RegionUsage, env: Env, ts: seq<Resource>) {
    forall i | 0 <= i < |recs| ::
      && recs[i].resourceType in ts && Positive(region.counters, recs[i].resourceType)
      && recs[i] == RegionalRecord(date, timestamp, recs[i].resourceType, region, env)
  }

  /** Some record is about resource `t`. */
  predicate HasKind(recs: seq<UsageRecord>, t: Resource) {
    exists i | 0 <= i < |recs| :: recs[i].resourceType == t
  }

  /** No two records are about the same resource. */
  predicate DistinctKinds(recs: seq<UsageRecord>) {
    forall i, j | 0 <= i < j < |recs| :: recs[i].resourceType != recs[j].resourceType
  }

  /** Every record carries the region `name`. */
  predicate AllIn(recs: seq<UsageRecord>, name: string) {
    forall i | 0 <= i < |recs| :: recs[i].region == name
  }

  /** Every record carries the name of one of `regions`. */
  predicate NamedIn(recs: seq<UsageRecord>, regions: seq<RegionUsage>) {
    forall i | 0 <= i < |recs| :: Named(regions, recs[i].region)
  }

  /** A record that carries a region's name is that region's record for its resource, and the
      region reports a positive amount of that resource. */
  predicate FromRegions(recs: seq<UsageRecord>, date: string, timestamp: Epoch, regions: seq<RegionUsage>, env: Env) {
    forall i, k | 0 <= i < |recs| && 0 <= k < |regions| && recs[i].region == regions[k].name ::
      && Positive(regions[k].counters, recs[i].resourceType)
      && recs[i] == RegionalRecord(date, timestamp, recs[i].resourceType, regions[k], env)
  }

  /** Every (region, resource) with a positive amount has a record. */
  predicate CoversRegions(recs: seq<UsageRecord>, regions: seq<RegionUsage>) {
    forall k, t | 0 <= k < |regions| && t in Resources && Positive(regions[k].counters, t) ::
      Has(recs, regions[k].name, t)
  }

  /** The resource loop of a region, one resource further. */
  lemma RegionRecordsSnoc(date: string, timestamp: Epoch, region: RegionUsage, env: Env, ts: seq<Resource>)
    requires ts != []
    ensures var t := ts[|ts| - 1];
      RegionRecords(date, timestamp, region, env, ts)
        == RegionRecords(date, timestamp, region, env, ts[..|ts| - 1])
             + (if Positive(region.counters, t) then [RegionalRecord(date, timestamp, t, region, env)] else [])
  {
  }

  /** Every record of a region's resource loop is the regional record of a resource among `ts`
      that the region reports a positive amount of. */
  lemma {:induction false} RegionRecordsFrom(date: string, timestamp: Epoch, region: RegionUsage, env: Env, ts: seq<Resource>)
    ensures FromRegion(RegionRecords(date, timestamp, region, env, ts), date, timestamp, region, env, ts)
    decreases |ts|
  {
    if ts != [] {
      var init := ts[..|ts| - 1];
      RegionRecordsFrom(date, timestamp, region, env, init);
      RegionRecordsSnoc(date, timestamp, region, env, ts);
      var prev := RegionRecords(date, timestamp, region, env, init);
      var recs := RegionRecords(date, timestamp, region, env, ts);
      forall i | 0 <= i < |recs|
        ensures recs[i].resourceType in ts
      {
        if i < |prev| {
          assert recs[i] == prev[i];
          var k :| 0 <= k < |init| && init[k] == prev[i].resourceType;
          assert ts[k] == init[k];
        }
      }
    }
  }

  /** Every resource among `ts` with a positive amount has a record in the region's loop. */
  lemma {:induction false} RegionRecordsCover(date: string, timestamp: Epoch, region: RegionUsage, env: Env, ts: seq<Resource>)
    ensures forall t | t in ts && Positive(region.counters, t) :: HasKind(RegionRecords(date, timestamp, region, env, ts), t)
    decreases |ts|
  {
    if ts != [] {
      var init := ts[..|ts| - 1];
      RegionRecordsCover(date, timestamp, region, env, init);
      RegionRecordsSnoc(date, timestamp, region, env, ts);
      var prev := RegionRecords(date, timestamp, region, env, init);
      var recs := RegionRecords(date, timestamp, region, env, ts);
      forall t | t in ts && Positive(region.counters, t)
        ensures exists i | 0 <= i < |recs| :: recs[i].resourceType == t
      {
        if t in init {
          var i :| 0 <= i < |prev| && prev[i].resourceType == t;
          assert recs[i] == prev[i];
        } else {
          assert t == ts[|ts| - 1];
          assert recs[|prev|] == RegionalRecord(date, timestamp, t, region, env);
        }
      }
    }
  }

  /** Over distinct resources, the region's records have distinct resources, one per resource
      with a positive amount. */
  lemma {:induction false} RegionRecordsCount(date: string, timestamp: Epoch, region: RegionUsage, env: Env, ts: seq<Resource>)
    requires DistinctResources(ts)
    ensures |RegionRecords(date, timestamp, region, env, ts)| == |PositiveKinds(region.counters, ts)|
    ensures DistinctKinds(RegionRecords(date, timestamp, region, env, ts))
    decreases |ts|
  {
    if ts != [] {
      var init := ts[..|ts| - 1];
      var t := ts[|ts| - 1];
      DistinctResourcesSnoc(ts);
      RegionRecordsCount(date, timestamp, region, env, init);
      RegionRecordsFrom(date, timestamp, region, env, init);
      RegionRecordsSnoc(date, timestamp, region, env, ts);
      PositiveKindsSnoc(region.counters, ts);
      if Positive(region.counters, t) {
        var prev := RegionRecords(date, timestamp, region, env, init);
        DistinctKindsSnoc(prev, RegionalRecord(date, timestamp, t, region, env));
      }
    }
  }

  lemma DistinctResourcesSnoc(ts: seq<Resource>)
    requires ts != [] && DistinctResources(ts)
    ensures DistinctResources(ts[..|ts| - 1]) && ts[|ts| - 1] !in ts[..|ts| - 1]
  {
    var init := ts[..|ts| - 1];
    forall k | 0 <= k < |init|
      ensures init[k] != ts[|ts| - 1]
    {
      assert init[k] == ts[k];
    }
  }

  lemma PositiveKindsSnoc(c: Counters, ts: seq<Resource>)
    requires ts != []
    ensures var t := ts[|ts| - 1];
      PositiveKinds(c, ts) == PositiveKinds(c, ts[..|ts| - 1]) + (if Positive(c, t) then {t} else {})
  {
    assert ts == ts[..|ts| - 1] + [ts[|ts| - 1]];
  }

  lemma DistinctKindsSnoc(recs: seq<UsageRecord>, r: UsageRecord)
    requires DistinctKinds(recs)
    requires forall i | 0 <= i < |recs| :: recs[i].resourceType != r.resourceType
    ensures DistinctKinds(recs + [r])
  {
    var all := recs + [r];
    assert forall i | 0 <= i < |recs| :: all[i] == recs[i];
  }

  /** Some region of the day carries this name. */
  predicate Named(regions: seq<RegionUsage>, name: string) {
    exists k | 0 <= k < |regions| :: regions[k].name == name
  }

  /** Some record carries this region and resource. */
  predicate Has(recs: seq<UsageRecord>, region: string, t: Resource) {
    exists i | 0 <= i < |recs| :: recs[i].region == region && recs[i].resourceType == t
  }

  lemma HasAppend(a: seq<UsageRecord>, b: seq<UsageRecord>, region: string, t: Resource)
    requires Has(a, region, t) || Has(b, region, t)
    ensures Has(a + b, region, t)
  {
    if Has(a, region, t) {
      var i :| 0 <= i < |a| && a[i].region == region && a[i].resourceType == t;
      assert (a + b)[i] == a[i];
    } else {
      var i :| 0 <= i < |b| && b[i].region == region && b[i].resourceType == t;
      assert (a + b)[|a| + i] == b[i];
    }
  }

  /** Two lists without shared regions, each without a repeated (region, resource), join into
      a list without one. */
  lemma DistinctPairsAppend(a: seq<UsageRecord>, b: seq<UsageRecord>)
    requires DistinctPairs(a) && DistinctPairs(b)
    requires forall i, j | 0 <= i < |a| && 0 <= j < |b| :: a[i].region != b[j].region
    ensures DistinctPairs(a + b)
  {
    var ab := a + b;
    forall i, j | 0 <= i < j < |ab|
      ensures ab[i].region != ab[j].region || ab[i].resourceType != ab[j].resourceType
    {
      if j < |a| {
        assert ab[i] == a[i] && ab[j] == a[j];
      } else if i < |a| {
        assert ab[i] == a[i] && ab[j] == b[j - |a|];
      } else {
        assert ab[i] == b[i - |a|] && ab[j] == b[j - |a|];
      }
    }
  }

  /** A region's own records all carry its name. */
  lemma RegionRecordsNamed(date: string, timestamp: Epoch, region: RegionUsage, env: Env)
    ensures AllIn(RegionRecords(date, timestamp, region, env, Resources), region.name)
  {
    RegionRecordsFrom(date, timestamp, region, env, Resources);
  }

  /** Every regional record carries the name of one of the day's regions. */
  lemma {:induction false} RegionsRecordsNamed(date: string, timestamp: Epoch, regions: seq<RegionUsage>, env: Env)
    ensures NamedIn(RegionsRecords(date, timestamp, regions, env), regions)
    decreases |regions|
  {
    if regions != [] {
      var n := |regions| - 1;
      var init := regions[..n];
      RegionsRecordsNamed(date, timestamp, init, env);
      RegionRecordsNamed(date, timestamp, regions[n], env);
      var prev := RegionsRecords(date, timestamp, init, env);
      var last := RegionRecords(date, timestamp, regions[n], env, Resources);
      var recs := RegionsRecords(date, timestamp, regions, env);
      forall i | 0 <= i < |recs|
        ensures Named(regions, recs[i].region)
      {
        if i < |prev| {
          assert recs[i] == prev[i];
          var k :| 0 <= k < |init| && init[k].name == prev[i].region;
          assert regions[k] == init[k];
        } else {
          assert recs[i] == last[i - |prev|];
          assert regions[n].name == recs[i].region;
        }
      }
    }
  }

  /** With distinct region names, a regional record that carries a region's name is that
      region's record for its resource, and the region reports a positive amount of it. */
  lemma {:induction false} RegionsRecordsOrigin(date: string, timestamp: Epoch, regions: seq<RegionUsage>, env: Env)
    requires DistinctNames(regions)
    ensures FromRegions(RegionsRecords(date, timestamp, regions, env), date, timestamp, regions, env)
    decreases |regions|
  {
    if regions != [] {
      var n := |regions| - 1;
      var init := regions[..n];
      assert DistinctNames(init);
      RegionsRecordsOrigin(date, timestamp, init, env);
      RegionsRecordsNamed(date, timestamp, init, env);
      RegionRecordsFrom(date, timestamp, regions[n], env, Resources);
      RegionRecordsNamed(date, timestamp, regions[n], env);
      var prev := RegionsRecords(date, timestamp, init, env);
      var last := RegionRecords(date, timestamp, regions[n], env, Resources);
      var recs := RegionsRecords(date, timestamp, regions, env);
      forall i, k | 0 <= i < |recs| && 0 <= k < |regions| && recs[i].region == regions[k].name
        ensures Positive(regions[k].counters, recs[i].resourceType)
        ensures recs[i] == RegionalRecord(date, timestamp, recs[i].resourceType, regions[k], env)
      {
        if i < |prev| {
          assert recs[i] == prev[i];
          assert Named(init, prev[i].region);
          var k' :| 0 <= k' < |init| && init[k'].name == prev[i].region;
          assert regions[k'] == init[k'];
          assert k == k';
        } else {
          assert recs[i] == last[i - |prev|];
          assert k == n;
        }
      }
    }
  }

  /** Every (region, resource) with a positive amount has a regional record. */
  lemma {:induction false} RegionsRecordsCover(date: string, timestamp: Epoch, regions: seq<RegionUsage>, env: Env)
    ensures CoversRegions(RegionsRecords(date, timestamp, regions, env), regions)
    decreases |regions|
  {
    if regions != [] {
      var n := |regions| - 1;
      var init := regions[..n];
      RegionsRecordsCover(date, timestamp, init, env);
      RegionRecordsCover(date, timestamp, regions[n], env, Resources);
      RegionRecordsNamed(date, timestamp, regions[n], env);
      var prev := RegionsRecords(date, timestamp, init, env);
      var last := RegionRecords(date, timestamp, regions[n], env, Resources);
      forall k, t | 0 <= k < |regions| && t in Resources && Positive(regions[k].counters, t)
        ensures Has(prev + last, regions[k].name, t)
      {
        if k < n {
          assert init[k] == regions[k];
        } else {
          var i :| 0 <= i < |last| && last[i].resourceType == t;
          assert last[i].region == regions[k].name;
        }
        HasAppend(prev, last, regions[k].name, t);
      }
    }
  }

  /** There are `RegionalCount` regional records, and with distinct region names no two share
      a region and a resource. */
  lemma {:induction false} RegionsRecordsCount(date: string, timestamp: Epoch, regions: seq<RegionUsage>, env: Env)
    ensures |RegionsRecords(date, timestamp, regions, env)| == RegionalCount(regions)
    ensures DistinctNames(regions) ==> DistinctPairs(RegionsRecords(date, timestamp, regions, env))
    decreases |regions|
  {
    if regions != [] {
      var n := |regions| - 1;
      var init := regions[..n];
      RegionsRecordsCount(date, timestamp, init, env);
      RegionRecordsCount(date, timestamp, regions[n], env, Resources);
      var prev := RegionsRecords(date, timestamp, init, env);
      var last := RegionRecords(date, timestamp, regions[n], env, Resources);
      if DistinctNames(regions) {
        assert DistinctNames(init);
        RegionsRecordsNamed(date, timestamp, init, env);
        RegionRecordsNamed(date, timestamp, regions[n], env);
        forall i, j | 0 <= i < |prev| && 0 <= j < |last|
          ensures prev[i].region != last[j].region
        {
          var k :| 0 <= k < |init| && init[k].name == prev[i].region;
          assert regions[k] == init[k];
        }
        DistinctPairsAppend(prev, last);
      }
    }
  }

  lemma GlobalRecordsSnoc(day: DayUsage, timestamp: Epoch, env: Env, ts: seq<Resource>, t: Resource)
    ensures GlobalRecords(day, timestamp, env, ts + [t])
         == GlobalRecords(day, timestamp, env, ts) + [GlobalRecord(day, timestamp, t, env)]
  {
  }

  /** The global records of a day, one per resource in order. */
  lemma GlobalRecordsFacts(day: DayUsage, timestamp: Epoch, env: Env)
    ensures |GlobalRecords(day, timestamp, env, Resources)| == 4
    ensures forall k | 0 <= k < 4 :: GlobalRecords(day, timestamp, env, Resources)[k] == GlobalRecord(day, timestamp, Resources[k], env)
    ensures DistinctPairs(GlobalRecords(day, timestamp, env, Resources))
  {
    var recs := GlobalRecords(day, timestamp, env, Resources);
    assert forall k | 0 <= k < 4 :: recs[k].resourceType == Resources[k];
    ResourcesDistinct();
    forall i, j | 0 <= i < j < |recs|
      ensures recs[i].resourceType != recs[j].resourceType
    {
      assert Resources[i] != Resources[j];
    }
  }

  lemma ResourcesDistinct()
    ensures DistinctResources(Resources)
  {
  }

  /** Every record is stamped with the day's timestamp and date, carries its resource's unit,
      and its id is the one `generateUsageId` gives its date, resource and region. */
  predicate Stamped(recs: seq<UsageRecord>, date: string, timestamp: Epoch, env: Env) {
    forall i | 0 <= i < |recs| ::
      && recs[i].timestamp == timestamp && recs[i].date == date
      && recs[i].unit == UnitOf(recs[i].resourceType)
      && recs[i].usageId == UsageId(date, recs[i].resourceType, recs[i].region, env)
  }

  lemma StampedAppend(a: seq<UsageRecord>, b: seq<UsageRecord>, date: string, timestamp: Epoch, env: Env)
    requires Stamped(a, date, timestamp, env) && Stamped(b, date, timestamp, env)
    ensures Stamped(a + b, date, timestamp, env)
  {
    assert forall i | |a| <= i < |a + b| :: (a + b)[i] == b[i - |a|];
  }

  lemma {:induction false} RegionsRecordsStamped(date: string, timestamp: Epoch, regions: seq<RegionUsage>, env: Env)
    ensures Stamped(RegionsRecords(date, timestamp, regions, env), date, timestamp, env)
    decreases |regions|
  {
    if regions != [] {
      var n := |regions| - 1;
      RegionsRecordsStamped(date, timestamp, regions[..n], env);
      RegionRecordsFrom(date, timestamp, regions[n], env, Resources);
      StampedAppend(RegionsRecords(date, timestamp, regions[..n], env),
                    RegionRecords(date, timestamp, regions[n], env, Resources), date, timestamp, env);
    }
  }

  /** The records of a kept day: the regional ones, one for each (region, resource) with a
      positive amount and each that region's record for its resource, then the four global
      ones in resource order; all stamped with the day. */
  lemma DayRecordsFacts(day: DayUsage, timestamp: Epoch, env: Env)
    ensures |DayRecords(day, timestamp, env)| == 4 + RegionalCount(RegionsOf(day))
    ensures Stamped(DayRecords(day, timestamp, env), day.date, timestamp, env)
    ensures var g := |DayRecords(day, timestamp, env)| - 4;
      && NamedIn(DayRecords(day, timestamp, env)[..g], RegionsOf(day))
      && CoversRegions(DayRecords(day, timestamp, env)[..g], RegionsOf(day))
      && (DistinctNames(RegionsOf(day)) ==>
            FromRegions(DayRecords(day, timestamp, env)[..g], day.date, timestamp, RegionsOf(day), env))
      && DayRecords(day, timestamp, env)[g..] == GlobalRecords(day, timestamp, env, Resources)
  {
    var regional := RegionsRecords(day.date, timestamp, RegionsOf(day), env);
    var globals := GlobalRecords(day, timestamp, env, Resources);
    var recs := DayRecords(day, timestamp, env);
    RegionsRecordsCount(day.date, timestamp, RegionsOf(day), env);
    RegionsRecordsStamped(day.date, timestamp, RegionsOf(day), env);
    RegionsRecordsNamed(day.date, timestamp, RegionsOf(day), env);
    RegionsRecordsCover(day.date, timestamp, RegionsOf(day), env);
    if DistinctNames(RegionsOf(day)) {
      RegionsRecordsOrigin(day.date, timestamp, RegionsOf(day), env);
    }
    GlobalRecordsFacts(day, timestamp, env);
    assert Stamped(globals, day.date, timestamp, env);
    StampedAppend(regional, globals, day.date, timestamp, env);
    assert recs[..|recs| - 4] == regional && recs[|recs| - 4..] == globals;
  }

  /** The global records are the last four of a day, in resource order, each carrying the day's
      total for its resource (or 0). */
  lemma GlobalRecordsLast(day: DayUsage, timestamp: Epoch, env: Env)
    ensures var recs := DayRecords(day, timestamp, env);
      |recs| >= 4 &&
      forall k | 0 <= k < 4 ::
        && recs[|recs| - 4 + k].region == GlobalRegion
        && recs[|recs| - 4 + k].resourceType == Resources[k]
        && recs[|recs| - 4 + k].quantity == OrZero(Amount(day.totals, Resources[k]))
  {
    DayRecordsFacts(day, timestamp, env);
    var recs := DayRecords(day, timestamp, env);
    forall k | 0 <= k < 4
      ensures recs[|recs| - 4 + k] == GlobalRecord(day, timestamp, Resources[k], env)
    {
      assert recs[|recs| - 4 + k] == recs[|recs| - 4..][k];
    }
  }

  /** A day whose every region reports all four resources yields four records per region and
      four global ones (the 2-region fixture: twelve records a day). */
  lemma FullDayCount(day: DayUsage, timestamp: Epoch, env: Env)
    requires forall k, t | 0 <= k < |RegionsOf(day)| :: Positive(RegionsOf(day)[k].counters, t)
    ensures |DayRecords(day, timestamp, env)| == 4 + 4 * |RegionsOf(day)|
  {
    DayRecordsFacts(day, timestamp, env);
    FullRegionalCount(RegionsOf(day));
  }

  lemma {:induction false} FullRegionalCount(regions: seq<RegionUsage>)
    requires forall k, t | 0 <= k < |regions| :: Positive(regions[k].counters, t)
    ensures RegionalCount(regions) == 4 * |regions|
    decreases |regions|
  {
    if regions != [] {
      var n := |regions| - 1;
      FullRegionalCount(regions[..n]);
      assert PositiveKinds(regions[n].counters, Resources) == {ParticipantMinutes, RecordingMinutes, EgressBandwidth, IngressBandwidth};
    }
  }

  /** With a colon-free date, distinct region names and no region named "global", the records
      of a day have pairwise distinct `generateUsageId` keys: the primary key is unique up to
      SHA-256 prefix collisions. */
  lemma DayKeysDistinct(day: DayUsage, timestamp: Epoch, env: Env)
    requires ':' !in day.date
    requires DistinctNames(RegionsOf(day)) && !Named(RegionsOf(day), GlobalRegion)
    ensures var recs := DayRecords(day, timestamp, env);
      forall i, j | 0 <= i < j < |recs| ::
        UsageKey(recs[i].date, recs[i].resourceType, recs[i].region)
          != UsageKey(recs[j].date, recs[j].resourceType, recs[j].region)
  {
    var regional := RegionsRecords(day.date, timestamp, RegionsOf(day), env);
    var globals := GlobalRecords(day, timestamp, env, Resources);
    var recs := DayRecords(day, timestamp, env);
    RegionsRecordsCount(day.date, timestamp, RegionsOf(day), env);
    RegionsRecordsNamed(day.date, timestamp, RegionsOf(day), env);
    RegionsRecordsStamped(day.date, timestamp, RegionsOf(day), env);
    GlobalRecordsFacts(day, timestamp, env);
    forall i, j | 0 <= i < |regional| && 0 <= j < |globals|
      ensures regional[i].region != globals[j].region
    {
      assert Named(RegionsOf(day), regional[i].region);
    }
    DistinctPairsAppend(regional, globals);
    assert Stamped(globals, day.date, timestamp, env);
    StampedAppend(regional, globals, day.date, timestamp, env);
    forall i, j | 0 <= i < j < |recs|
      ensures UsageKey(recs[i].date, recs[i].resourceType, recs[i].region)
           != UsageKey(recs[j].date, recs[j].resourceType, recs[j].region)
    {
      if UsageKey(recs[i].date, recs[i].resourceType, recs[i].region)
         == UsageKey(recs[j].date, recs[j].resourceType, recs[j].region) {
        UsageKeyInjective(recs[i].date, recs[i].resourceType, recs[i].region,
                          recs[j].date, recs[j].resourceType, recs[j].region);
      }
    }
  }

  /** The regional record of a region named "global" carries the global id of its resource. */
  lemma GlobalNamedRecord(day: DayUsage, timestamp: Epoch, env: Env, k: nat, t: Resource) returns (i: nat)
    requires k < |RegionsOf(day)| && RegionsOf(day)[k].name == GlobalRegion
    requires Positive(RegionsOf(day)[k].counters, t)
    ensures i < |RegionsRecords(day.date, timestamp, RegionsOf(day), env)|
    ensures RegionsRecords(day.date, timestamp, RegionsOf(day), env)[i].usageId == UsageId(day.date, t, GlobalRegion, env)
  {
    var regional := RegionsRecords(day.date, timestamp, RegionsOf(day), env);
    RegionsRecordsCover(day.date, timestamp, RegionsOf(day), env);
    RegionsRecordsStamped(day.date, timestamp, RegionsOf(day), env);
    assert t in Resources;
    assert Has(regional, GlobalRegion, t);
    i :| 0 <= i < |regional| && regional[i].region == GlobalRegion && regional[i].resourceType == t;
  }

  /** A region literally named "global" that reports a positive amount of a resource gets the
      same `usage_id` as that day's global record of the resource. */
  lemma GlobalRegionCollides(day: DayUsage, timestamp: Epoch, env: Env, k: nat, t: Resource)
    requires k < |RegionsOf(day)| && RegionsOf(day)[k].name == GlobalRegion
    requires Positive(RegionsOf(day)[k].counters, t)
    ensures var recs := DayRecords(day, timestamp, env);
      exists i, j | 0 <= i < j < |recs| :: recs[i].usageId == recs[j].usageId
  {
    var regional := RegionsRecords(day.date, timestamp, RegionsOf(day), env);
    var globals := GlobalRecords(day, timestamp, env, Resources);
    var i := GlobalNamedRecord(day, timestamp, env, k, t);
    assert t in Resources;
    var m :| 0 <= m < 4 && Resources[m] == t;
    GlobalRecordsFacts(day, timestamp, env);
    var recs := DayRecords(day, timestamp, env);
    var j := |regional| + m;
    assert recs[i] == regional[i];
    assert recs[j] == globals[m];
  }

  // ---------------------------------------------------------------------------------------------
  // Properties of a run

  /** The `data` of the RECORD lines of a sequence of usage records. */
  function UsageRecs(recs: seq<UsageRecord>): seq<Rec> {
    seq(|recs|, i requires 0 <= i < |recs| => UsageRec(recs[i]))
  }

  lemma UsageRecsAppend(a: seq<UsageRecord>, b: seq<UsageRecord>)
    ensures UsageRecs(a + b) == UsageRecs(a) + UsageRecs(b)
  {
  }

  lemma {:induction false} LinesRecords(recs: seq<UsageRecord>)
    ensures RecordsOf(Lines(recs)) == UsageRecs(recs)
    ensures NoStates(Lines(recs))
    decreases |recs|
  {
    if recs != [] {
      var init := recs[..|recs| - 1];
      LinesRecords(init);
      assert Lines(recs)[..|recs| - 1] == Lines(init);
      assert UsageRecs(recs) == UsageRecs(init) + [UsageRec(recs[|recs| - 1])];
    }
  }

  /** A day's step: it emits nothing exactly when the cursor rule drops the day, and either way
      the watermark ends where advancing by the day's timestamp puts it. */
  lemma DayStepFacts(env: Env, wm: int, day: DayUsage)
    ensures DayStep(env)(wm, day).wm == Advance(wm, DayTime(day, env))
    ensures DayStep(env)(wm, day).out == [] <==> Skips(DayTime(day, env), wm)
    ensures NoStates(DayStep(env)(wm, day).out)
  {
    var timestamp := DayTime(day, env);
    if !Skips(timestamp, wm) {
      DayRecordsFacts(day, timestamp, env);
      LinesRecords(DayRecords(day, timestamp, env));
    }
  }

  function DayTimes(days: seq<DayUsage>, env: Env): seq<Epoch> {
    seq(|days|, i requires 0 <= i < |days| => DayTime(days[i], env))
  }

  /** The records of the days the cursor rule keeps, as a reference: a day is kept unless its
      timestamp is at or below a positive maximum of the prior watermark and every earlier
      day's timestamp; a kept day contributes all its records. */
  function Kept(env: Env, wm: int, days: seq<DayUsage>): seq<UsageRecord> {
    if days == [] then []
    else
      var init := days[..|days| - 1];
      var day := days[|days| - 1];
      Kept(env, wm, init)
        + (if Skips(DayTime(day, env), AdvanceAll(wm, DayTimes(init, env))) then []
           else DayRecords(day, DayTime(day, env), env))
  }

  /** The day loop ends at the latest of the prior watermark and every day's timestamp, kept or
      not. */
  lemma {:induction false} UsageScanWatermark(env: Env, wm: int, days: seq<DayUsage>)
    ensures Scan(DayStep(env), wm, days).wm == AdvanceAll(wm, DayTimes(days, env))
    decreases |days|
  {
    if days != [] {
      var init := days[..|days| - 1];
      UsageScanWatermark(env, wm, init);
      assert DayTimes(days, env)[..|days| - 1] == DayTimes(init, env);
      DayStepFacts(env, Scan(DayStep(env), wm, init).wm, days[|days| - 1]);
    }
  }

  /** The day loop writes no STATE line and emits exactly the records of the kept days. */
  lemma {:induction false} UsageScanRecords(env: Env, wm: int, days: seq<DayUsage>)
    ensures RecordsOf(Scan(DayStep(env), wm, days).out) == UsageRecs(Kept(env, wm, days))
    ensures NoStates(Scan(DayStep(env), wm, days).out)
    decreases |days|
  {
    if days != [] {
      var init := days[..|days| - 1];
      var day := days[|days| - 1];
      UsageScanRecords(env, wm, init);
      UsageScanWatermark(env, wm, init);
      var prev := Scan(DayStep(env), wm, init);
      var timestamp := DayTime(day, env);
      var extra := if Skips(timestamp, prev.wm) then [] else DayRecords(day, timestamp, env);
      assert DayStep(env)(prev.wm, day).out == Lines(extra);
      LinesRecords(extra);
      RecordsOfAppend(prev.out, Lines(extra));
      NoStatesAppend(prev.out, Lines(extra));
      UsageRecsAppend(Kept(env, wm, init), extra);
    }
  }

  /** The kept records in time order, against the prior watermark `wm` and the running
      watermark `top`: each valid timestamp lies at or below `top` and, when `wm` is positive,
      above `wm`; and no record with a positive timestamp is followed by an earlier one. */
  predicate Ordered(recs: seq<UsageRecord>, wm: int, top: int) {
    && (forall i | 0 <= i < |recs| && recs[i].timestamp.Ms? ::
          recs[i].timestamp.ms <= top && (wm > 0 ==> recs[i].timestamp.ms > wm))
    && (forall i, j | 0 <= i < j < |recs| && recs[i].timestamp.Ms? && recs[j].timestamp.Ms? ::
          recs[i].timestamp.ms > 0 ==> recs[j].timestamp.ms >= recs[i].timestamp.ms)
  }

  /** Appending the records of a day the cursor rule keeps preserves the order. */
  lemma OrderedAppendDay(recs: seq<UsageRecord>, day: seq<UsageRecord>, date: string, timestamp: Epoch, env: Env, wm: int, top: int)
    requires Ordered(recs, wm, top) && top >= wm
    requires Stamped(day, date, timestamp, env) && !Skips(timestamp, top)
    ensures Ordered(recs + day, wm, Advance(top, timestamp))
  {
    var all := recs + day;
    assert forall i | 0 <= i < |recs| :: all[i] == recs[i];
    assert forall i | |recs| <= i < |all| :: all[i] == day[i - |recs|];
  }

  lemma {:induction false} KeptOrdered(env: Env, wm: int, days: seq<DayUsage>)
    ensures Ordered(Kept(env, wm, days), wm, AdvanceAll(wm, DayTimes(days, env)))
    decreases |days|
  {
    if days != [] {
      var init := days[..|days| - 1];
      var day := days[|days| - 1];
      KeptOrdered(env, wm, init);
      assert DayTimes(days, env)[..|days| - 1] == DayTimes(init, env);
      var top := AdvanceAll(wm, DayTimes(init, env));
      AdvanceAllIsMax(wm, DayTimes(init, env));
      var timestamp := DayTime(day, env);
      if !Skips(timestamp, top) {
        DayRecordsFacts(day, timestamp, env);
        OrderedAppendDay(Kept(env, wm, init), DayRecords(day, timestamp, env), day.date, timestamp, env, wm, top);
      } else {
        assert Kept(env, wm, days) == Kept(env, wm, init);
      }
    }
  }

  /** A `read()` of the usage stream keeps the run contract; it fails exactly when the one
      request fails, and then emits no record; otherwise it emits the records of the kept days,
      in time order, and ends at the latest day timestamp (or the prior watermark). */
  lemma UsageRunFacts(api: Api, env: Env, config: map<string, JsValue>, state: StreamState)
    ensures WellFormedRun(UsageRun(api, env, config, state), Name, ErrorPrefix, Completed, state)
    ensures UsageRun(api, env, config, state).result.Failure? <==> Fetch(api, env, config, state).Failure?
    ensures Fetch(api, env, config, state).Failure? ==> RecordsOf(UsageRun(api, env, config, state).out) == []
    ensures Fetch(api, env, config, state).Success? ==>
      var days := Days(Fetch(api, env, config, state).value);
      var run := UsageRun(api, env, config, state);
      && RecordsOf(run.out) == UsageRecs(Kept(env, PriorWatermark(state), days))
      && run.watermark == AdvanceAll(PriorWatermark(state), DayTimes(days, env))
      && Ordered(Kept(env, PriorWatermark(state), days), PriorWatermark(state), run.watermark)
  {
    var from := Base.StartDate(config, state, env);
    var head := Head(from, env);
    var prior := PriorWatermark(state);
    var response := Fetch(api, env, config, state);
    assert NoStates(head);
    RecordsOfNone(head);
    if response.Failure? {
      CloseWellFormed(Name, ErrorPrefix, Completed, head, prior, Some(response.error), state);
    } else {
      var days := Days(response.value);
      var e := Scan(DayStep(env), prior, days);
      UsageScanWatermark(env, prior, days);
      UsageScanRecords(env, prior, days);
      AdvanceAllIsMax(prior, DayTimes(days, env));
      NoStatesAppend(head, e.out);
      RecordsOfAppend(head, e.out);
      CloseWellFormed(Name, ErrorPrefix, Completed, head + e.out, e.wm, None, state);
      KeptOrdered(env, prior, days);
    }
  }
}
