/** The `events` stream: pages through `GET /events` and emits the events newer than the running
    watermark, with their severity normalised to four levels. */
module Events {
  import opened Values
  import opened Records
  import opened Messages
  import opened Api
  import opened Paging
  import Base

  const Name: string := "events"
  const ErrorPrefix: string := "Error syncing events: "
  const Completed: string := "Completed sync for events stream"

  // ---------------------------------------------------------------------------------------------
  // Severity

  /** The levels the API reports, lower-cased, and the severity each maps to. */
  const SeverityTable: map<string, Severity> := map[
    "debug" := Info, "info" := Info, "notice" := Info,
    "warning" := Warning, "warn" := Warning,
    "error" := Error,
    "alert" := Critical, "critical" := Critical, "emergency" := Critical]

  /** `mapSeverity(level)`: the table entry of the lower-cased level, and `info` for a level the
      table does not know. */
  function MapSeverity(level: string): (r: Severity)
    ensures r == Warning <==> ToLower(level) in {"warning", "warn"}
    ensures r == Error <==> ToLower(level) == "error"
    ensures r == Critical <==> ToLower(level) in {"alert", "critical", "emergency"}
    ensures r == Info <==> ToLower(level) !in {"warning", "warn", "error", "alert", "critical", "emergency"}
  {
    var key := ToLower(level);
    if key in SeverityTable then SeverityTable[key] else Info
  }

  /** The level is matched without regard to the case of its ASCII letters. */
  lemma MapSeverityIgnoresCase(level: string)
    ensures MapSeverity(ToLower(level)) == MapSeverity(level)
  {
    ToLowerIdempotent(level);
  }

  /** What `severityMap[key] || 'info'` yields when the lookup also sees the members every
      JavaScript object inherits. Of those, only `constructor` and `__proto__` are all lower case,
      so only they survive `toLowerCase()`; both are truthy (a function and an object). */
  datatype Lookup = Own(severity: Severity) | Inherited(member: string)

  const InheritedMembers: set<string> := {"constructor", "__proto__"}

  function MapSeverityAsWritten(level: string): (r: Lookup)
    ensures r.Inherited? <==> ToLower(level) in InheritedMembers
    ensures r.Own? ==> r.severity == MapSeverity(level)
  {
    var key := ToLower(level);
    if key in SeverityTable then Own(SeverityTable[key])
    else if key in InheritedMembers then Inherited(key)
    else Own(Info)
  }

  /** A level of "constructor" does not map to any severity: the lookup returns the inherited
      `Object` function, which `JSON.stringify` then drops from the record. */
  lemma ConstructorLevelEscapesTable()
    ensures MapSeverityAsWritten("constructor").Inherited?
    ensures MapSeverity("constructor") == Info
  {
    assert ToLower("constructor") == "constructor";
  }

  // ---------------------------------------------------------------------------------------------
  // Records

  /** `event.level || 'info'` */
  function LevelOrInfo(level: Option<string>): string {
    if level.Some? && level.value != "" then level.value else "info"
  }

  /** The record of one event. */
  function EventRecordOf(event: RawEvent, env: Env): (r: EventRecord)
    ensures r.timestamp == env.parseDate(event.timestamp) && r.eventTime == event.timestamp
    ensures r.eventId == event.id && r.eventType == event.eventType
    ensures r.severity == MapSeverity(LevelOrInfo(event.level))
    ensures Truthy(event.roomId) ==> r.roomId == event.roomId
    ensures !Truthy(event.roomId) ==> r.roomId == Null
    ensures Truthy(event.source) ==> r.source == event.source
    ensures !Truthy(event.source) ==> r.source == Str("livekit")
    ensures Truthy(event.participantId) ==> r.participantId == event.participantId
    ensures !Truthy(event.participantId) ==> r.participantId == Null
    ensures Truthy(event.message) ==> r.message == event.message
    ensures !Truthy(event.message) ==> r.message == Str("")
    ensures Truthy(event.metadata) ==> r.metadata == event.metadata
    ensures !Truthy(event.metadata) ==> r.metadata == EmptyObject
    ensures Truthy(event.ipAddress) ==> r.ipAddress == event.ipAddress
    ensures !Truthy(event.ipAddress) ==> r.ipAddress == Null
    ensures Truthy(event.region) ==> r.region == event.region
    ensures !Truthy(event.region) ==> r.region == Null
  {
    EventRecord(
      eventId := event.id,
      roomId := Or(event.roomId, Null),
      participantId := Or(event.participantId, Null),
      timestamp := env.parseDate(event.timestamp),
      eventTime := event.timestamp,
      eventType := event.eventType,
      severity := MapSeverity(LevelOrInfo(event.level)),
      message := Or(event.message, Str("")),
      metadata := Or(event.metadata, EmptyObject),
      source := Or(event.source, Str("livekit")),
      ipAddress := Or(event.ipAddress, Null),
      region := Or(event.region, Null))
  }

  /** The body of the `for (const event of events)` loop: an event at or below a positive
      watermark is skipped; any other is emitted and may advance the watermark. */
  function EventStep(env: Env): (int, RawEvent) -> Emission {
    (wm: int, event: RawEvent) =>
      var record := EventRecordOf(event, env);
      if Skips(record.timestamp, wm) then Emission([], wm)
      else Emission([RecordMessage(Name, EventRec(record))], Advance(wm, record.timestamp))
  }

  /** The line written after a non-empty page arrives. */
  function PageLog(page: Page<RawEvent>): seq<Message> {
    if |page.items| == 0 then [] else [InfoLog("Processing " + NatToString(|page.items|) + " events")]
  }

  /** `{ from, to: endDate, limit: 100, offset }` */
  function EventsQuery(from: JsValue, to: string, offset: nat): Query {
    Query(from, Some(to), Some(PageLimit), Some(offset), None)
  }

  function EventsPager(api: Api, from: JsValue, to: string): Pager<RawEvent> {
    (offset: nat) => api.events(EventsQuery(from, to, offset))
  }

  function Head(from: JsValue, env: Env): seq<Message> {
    [InfoLog("Starting sync for events stream"),
     InfoLog("Fetching events from " + Display(from, env.showNumber) + " to " + env.today)]
  }

  /** What a `read()` of the events stream writes and returns. `bound` is an offset from which
      the server hands out no full page. */
  function EventsRun(api: Api, env: Env, config: map<string, JsValue>, state: StreamState, ghost bound: nat): Run
    requires EndsBy(EventsPager(api, Base.StartDate(config, state, env), env.today), bound)
  {
    var from := Base.StartDate(config, state, env);
    var walk := Paginate(EventsPager(api, from, env.today), 0, bound);
    var body := Paged(EventStep(env), PageLog, PriorWatermark(state), walk.pages);
    Close(Name, ErrorPrefix, Completed, Head(from, env) + body.out + FailedPageLog(walk, PageLog), body.wm, Failed(walk), state)
  }

  class EventsStream {
    const base: Base.BaseStream
    const cursorField: string := CursorField

    predicate Valid()
      reads base
    {
      base.streamName == Name
    }

    constructor (config: map<string, JsValue>, streamConfig: JsValue, state: Option<StreamState>)
      ensures Valid() && fresh(base)
      ensures base.config == config && base.streamConfig == streamConfig
      ensures base.state == (if state.Some? then state.value else map[])
      ensures base.output == []
    {
      var b := new Base.BaseStream("EventsStream", config, streamConfig, state);
      b.streamName := Name;
      base := b;
    }

    function SourceDefinedPrimaryKey(): (key: seq<seq<string>>)
      ensures key == [["event_id"]]
    {
      [["event_id"]]
    }

    function DefaultCursorField(): (field: seq<string>)
      ensures field == Base.DefaultCursorField()
    {
      [cursorField]
    }

    /** The `for (const event of events)` loop. */
    method EmitEvents(env: Env, events: seq<RawEvent>, wm: int) returns (latestTimestamp: int)
      requires Valid()
      modifies base`output
      ensures Valid()
      ensures var e := Scan(EventStep(env), wm, events);
        base.output == old(base.output) + e.out && latestTimestamp == e.wm
    {
      latestTimestamp := wm;
      for i := 0 to |events|
        invariant base.output == old(base.output) + Scan(EventStep(env), wm, events[..i]).out
        invariant latestTimestamp == Scan(EventStep(env), wm, events[..i]).wm
      {
        assert events[..i + 1][..i] == events[..i];
        var timestamp := env.parseDate(events[i].timestamp);
        if timestamp.Ms? && timestamp.ms <= latestTimestamp && latestTimestamp > 0 {
          continue;
        }
        var record := EventRecordOf(events[i], env);
        if timestamp.Ms? && timestamp.ms > latestTimestamp {
          latestTimestamp := timestamp.ms;
        }
        base.EmitRecord(EventRec(record));
      }
      assert events[..|events|] == events;
    }

    /** One turn of the paging loop: the request at `offset` and, when it brings a non-empty
        page, the page's log line and records. */
    method FetchPage(api: Api, env: Env, from: JsValue, offset: nat, wm: int)
      returns (response: Result<seq<RawEvent>, JsError>, latestTimestamp: int)
      requires Valid()
      modifies base`output
      ensures Valid()
      ensures var answer := EventsPager(api, from, env.today)(offset);
        && (answer.Failure? ==>
              && response == Failure(answer.error) && latestTimestamp == wm
              && base.output == old(base.output) + PageLog(Page(offset, [])))
        && (answer.Success? ==>
              var e := Scan(EventStep(env), wm, Items(answer.value));
              && response == Success(Items(answer.value)) && latestTimestamp == e.wm
              && base.output == old(base.output) + PageLog(Page(offset, Items(answer.value))) + e.out)
    {
      var answer := api.events(EventsQuery(from, env.today, offset));
      latestTimestamp := wm;
      if answer.Failure? {
        return Failure(answer.error), latestTimestamp;
      }
      var events := Items(answer.value);
      if |events| != 0 {
        base.EmitLog("INFO", "Processing " + NatToString(|events|) + " events");
        latestTimestamp := EmitEvents(env, events, latestTimestamp);
      }
      response := Success(events);
    }

    /** The `while (hasMorePages)` loop of `read()`: pages through the events from offset 0;
        stops at the first page that is not full, or at a failed request, whose error it
        returns. */
    method ReadPages(api: Api, env: Env, from: JsValue, wm: int, ghost bound: nat)
      returns (latestTimestamp: int, error: Option<JsError>)
      requires Valid()
      requires EndsBy(EventsPager(api, from, env.today), bound)
      modifies base`output
      ensures Valid()
      ensures var walk := Paginate(EventsPager(api, from, env.today), 0, bound);
        var body := Paged(EventStep(env), PageLog, wm, walk.pages);
        && latestTimestamp == body.wm
        && (walk.failure.None? ==> error.None? && base.output == old(base.output) + body.out)
        && (walk.failure.Some? ==>
              && error == Some(walk.failure.value.error)
              && base.output == old(base.output) + body.out + PageLog(Page(walk.failure.value.offset, [])))
    {
      var hasMorePages := true;
      var offset: nat := 0;
      latestTimestamp := wm;
      ghost var fetch := EventsPager(api, from, env.today);
      ghost var walk := Paginate(fetch, 0, bound);
      ghost var body := Emission([], wm);
      ghost var k := 0;
      while hasMorePages
        invariant k <= |walk.pages|
        invariant hasMorePages ==> Paginate(fetch, offset, bound) == Walk(walk.pages[k..], walk.failure)
        invariant !hasMorePages ==> k == |walk.pages| && walk.failure.None?
        invariant body == Paged(EventStep(env), PageLog, wm, walk.pages[..k])
        invariant base.output == old(base.output) + body.out && latestTimestamp == body.wm
        decreases |walk.pages| - k, hasMorePages
      {
        var response;
        response, latestTimestamp := FetchPage(api, env, from, offset, latestTimestamp);
        PaginateTurn(fetch, offset, bound, walk, k);
        if response.Failure? {
          assert walk.pages[..k] == walk.pages;
          Assoc(old(base.output), body.out, PageLog(Page(offset, [])));
          return latestTimestamp, Some(response.error);
        }
        var events := response.value;
        PagedExtend(EventStep(env), PageLog, wm, walk.pages, k, old(base.output));
        body := Paged(EventStep(env), PageLog, wm, walk.pages[..k + 1]);
        k := k + 1;
        offset := offset + |events|;
        hasMorePages := |events| == PageLimit;
      }
      assert walk.pages[..k] == walk.pages;
      error := None;
    }

    /** `read()`: the method writes exactly the lines of `EventsRun` and returns its result. */
    method Read(api: Api, env: Env, ghost bound: nat) returns (result: Result<StreamState, JsError>)
      requires Valid()
      requires EndsBy(EventsPager(api, Base.StartDate(base.config, base.state, env), env.today), bound)
      modifies base`output
      ensures Valid()
      ensures var run := EventsRun(api, env, base.config, base.state, bound);
        base.output == old(base.output) + run.out && result == run.result
    {
      var state := base.state;
      base.EmitLog("INFO", "Starting sync for events stream");
      var startDate := Base.StartDate(base.config, state, env);
      var endDate := env.today;
      base.EmitLog("INFO", "Fetching events from " + Display(startDate, env.showNumber) + " to " + endDate);
      assert base.output == old(base.output) + Head(startDate, env);
      var latestTimestamp, error := ReadPages(api, env, startDate, PriorWatermark(state), bound);
      if error.Some? {
        base.EmitLog("ERROR", ErrorPrefix + error.value.message);
        result := Failure(error.value);
      } else {
        result := base.Conclude(Completed, state, latestTimestamp);
      }
      ReadAssembles(api, env, base.config, state, bound, old(base.output), base.output, result);
    }
  }

  /** The lines `Read` writes, piece by piece, make up the lines of `EventsRun`. */
  lemma ReadAssembles(api: Api, env: Env, config: map<string, JsValue>, state: StreamState, bound: nat,
                      before: seq<Message>, after: seq<Message>, result: Result<StreamState, JsError>)
    requires EndsBy(EventsPager(api, Base.StartDate(config, state, env), env.today), bound)
    requires var from := Base.StartDate(config, state, env);
      var walk := Paginate(EventsPager(api, from, env.today), 0, bound);
      var body := Paged(EventStep(env), PageLog, PriorWatermark(state), walk.pages);
      && (walk.failure.Some? ==>
            && after == before + Head(from, env) + body.out + PageLog(Page(walk.failure.value.offset, []))
                 + [ErrorLog(ErrorPrefix, walk.failure.value.error)]
            && result == Failure(walk.failure.value.error))
      && (walk.failure.None? ==>
            && after == before + Head(from, env) + body.out + Finish(Name, Completed, [], body.wm, state).out
            && result == Finish(Name, Completed, [], body.wm, state).result)
    ensures var run := EventsRun(api, env, config, state, bound);
      after == before + run.out && result == run.result
  {
    var from := Base.StartDate(config, state, env);
    var walk := Paginate(EventsPager(api, from, env.today), 0, bound);
    var body := Paged(EventStep(env), PageLog, PriorWatermark(state), walk.pages);
    var head := Head(from, env);
    Assoc(before, head, body.out);
    if walk.failure.Some? {
      var tail := PageLog(Page(walk.failure.value.offset, []));
      Assoc(before, head + body.out, tail);
      Assoc(before, head + body.out + tail, [ErrorLog(ErrorPrefix, walk.failure.value.error)]);
    } else {
      assert head + body.out + FailedPageLog(walk, PageLog) == head + body.out;
      FinishAppends(Name, Completed, head + body.out, body.wm, state);
      Assoc(before, head + body.out, Finish(Name, Completed, [], body.wm, state).out);
    }
  }

  // ---------------------------------------------------------------------------------------------
  // Properties of a run

  function EventTimes(events: seq<RawEvent>, env: Env): seq<Epoch> {
    seq(|events|, i requires 0 <= i < |events| => env.parseDate(events[i].timestamp))
  }

  /** The timestamp of an emitted event record. */
  function RecTime(r: Rec): Epoch {
    if r.EventRec? then r.event.timestamp else NaN
  }

  /** Order of the emitted events, against the prior watermark `wm` and the running watermark
      `top`: all are event records; each valid timestamp lies at or below `top` and, when `wm` is
      positive, above `wm`; and the valid positive timestamps strictly increase. */
  ghost predicate Ordered(recs: seq<Rec>, wm: int, top: int) {
    && (forall i | 0 <= i < |recs| :: recs[i].EventRec?)
    && (forall i | 0 <= i < |recs| && RecTime(recs[i]).Ms? ::
          RecTime(recs[i]).ms <= top && (wm > 0 ==> RecTime(recs[i]).ms > wm))
    && (forall i, j | 0 <= i < j < |recs| && RecTime(recs[i]).Ms? && RecTime(recs[j]).Ms? ::
          RecTime(recs[i]).ms > 0 ==> RecTime(recs[j]).ms > RecTime(recs[i]).ms)
  }

  /** Emitting one more event that the cursor rule lets through keeps the order. */
  lemma OrderedSnoc(recs: seq<Rec>, r: Rec, wm: int, top: int)
    requires Ordered(recs, wm, top) && top >= wm
    requires r.EventRec? && !Skips(RecTime(r), top)
    ensures Ordered(recs + [r], wm, Advance(top, RecTime(r)))
  {
    var all := recs + [r];
    assert all[|recs|] == r;
    forall i | 0 <= i < |recs|
      ensures all[i] == recs[i]
    {
    }
  }

  /** The watermark of the event loop is the latest timestamp among the prior watermark and all
      events seen, emitted or not. */
  lemma {:induction false} EventScanWatermark(env: Env, wm: int, events: seq<RawEvent>)
    ensures Scan(EventStep(env), wm, events).wm == AdvanceAll(wm, EventTimes(events, env))
    decreases |events|
  {
    if events != [] {
      var init := events[..|events| - 1];
      EventScanWatermark(env, wm, init);
      assert EventTimes(events, env)[..|events| - 1] == EventTimes(init, env);
    }
  }

  /** What the event loop emits is in time order: nothing at or below a positive prior
      watermark, and each record with a positive timestamp is followed only by strictly later
      ones. */
  lemma {:induction false} EventScanOrdered(env: Env, wm: int, events: seq<RawEvent>)
    ensures var e := Scan(EventStep(env), wm, events);
      e.wm >= wm && Ordered(RecordsOf(e.out), wm, e.wm)
    decreases |events|
  {
    if events != [] {
      var init := events[..|events| - 1];
      EventScanOrdered(env, wm, init);
      var prev := Scan(EventStep(env), wm, init);
      var record := EventRecordOf(events[|events| - 1], env);
      if !Skips(record.timestamp, prev.wm) {
        RecordsOfAppend(prev.out, [RecordMessage(Name, EventRec(record))]);
        OrderedSnoc(RecordsOf(prev.out), EventRec(record), wm, prev.wm);
      } else {
        assert prev.out + [] == prev.out;
      }
    }
  }

  lemma EventStepFacts(env: Env)
    ensures forall w, x :: NoStates(EventStep(env)(w, x).out) && EventStep(env)(w, x).wm >= w
    ensures forall p :: NoStates(PageLog(p))
  {
  }

  /** One turn of the event loop emits nothing exactly when the cursor rule skips the event; an
      event it does not skip becomes one RECORD line of its record and advances the watermark. */
  lemma EventStepKeeps(env: Env, wm: int, event: RawEvent)
    ensures var e := EventStep(env)(wm, event);
      var timestamp := env.parseDate(event.timestamp);
      && (e.out == [] <==> Skips(timestamp, wm))
      && (Skips(timestamp, wm) ==> e.wm == wm)
      && (!Skips(timestamp, wm) ==>
            e.out == [RecordMessage(Name, EventRec(EventRecordOf(event, env)))] && e.wm == Advance(wm, timestamp))
  {
  }

  /** The events the cursor rule keeps, as a reference: an event is kept unless its timestamp is
      at or below a positive maximum of the prior watermark and every earlier event's timestamp,
      emitted or not. */
  function KeptEvents(env: Env, wm: int, events: seq<RawEvent>): seq<RawEvent> {
    if events == [] then []
    else
      var init := events[..|events| - 1];
      var event := events[|events| - 1];
      KeptEvents(env, wm, init)
        + (if Skips(env.parseDate(event.timestamp), AdvanceAll(wm, EventTimes(init, env))) then [] else [event])
  }

  /** The `data` of the RECORD lines of `events`, in order. */
  function EventRecs(events: seq<RawEvent>, env: Env): seq<Rec> {
    seq(|events|, i requires 0 <= i < |events| => EventRec(EventRecordOf(events[i], env)))
  }

  lemma EventRecsAppend(a: seq<RawEvent>, b: seq<RawEvent>, env: Env)
    ensures EventRecs(a + b, env) == EventRecs(a, env) + EventRecs(b, env)
  {
  }

  /** The event loop emits exactly the records of the kept events, in order. */
  lemma {:induction false} EventScanRecords(env: Env, wm: int, events: seq<RawEvent>)
    ensures RecordsOf(Scan(EventStep(env), wm, events).out) == EventRecs(KeptEvents(env, wm, events), env)
    decreases |events|
  {
    if events != [] {
      var init := events[..|events| - 1];
      var event := events[|events| - 1];
      EventScanRecords(env, wm, init);
      EventScanWatermark(env, wm, init);
      var prev := Scan(EventStep(env), wm, init);
      var e := EventStep(env)(prev.wm, event);
      EventStepKeeps(env, prev.wm, event);
      RecordsOfAppend(prev.out, e.out);
      var extra := if Skips(env.parseDate(event.timestamp), prev.wm) then [] else [event];
      if extra != [] {
        RecordsOfSingle(e.out[0]);
      }
      assert RecordsOf(e.out) == EventRecs(extra, env);
      EventRecsAppend(KeptEvents(env, wm, init), extra, env);
    }
  }

  /** An events run keeps the contract of every `read()`, and its records and watermark are
      those of its traversal. */
  lemma EventsRunWellFormed(api: Api, env: Env, config: map<string, JsValue>, state: StreamState, bound: nat)
    requires EndsBy(EventsPager(api, Base.StartDate(config, state, env), env.today), bound)
    ensures var walk := Paginate(EventsPager(api, Base.StartDate(config, state, env), env.today), 0, bound);
      var body := Paged(EventStep(env), PageLog, PriorWatermark(state), walk.pages);
      var run := EventsRun(api, env, config, state, bound);
      && WellFormedRun(run, Name, ErrorPrefix, Completed, state)
      && RecordsOf(run.out) == RecordsOf(body.out) && run.watermark == body.wm
  {
    var from := Base.StartDate(config, state, env);
    var walk := Paginate(EventsPager(api, from, env.today), 0, bound);
    EventStepFacts(env);
    PagedRunWellFormed(Name, ErrorPrefix, Completed, Head(from, env), EventStep(env), PageLog, walk.pages,
                       FailedPageLog(walk, PageLog), Failed(walk), state);
  }

  /** Over a whole run: the run emits exactly the records of the kept events among all those
      fetched, in order; the final watermark is the latest valid timestamp among them and the
      prior watermark; no event at or below a positive prior watermark is emitted; and the
      emitted events with a positive timestamp strictly increase in time, so none of them is
      emitted twice within a run. */
  lemma EventsRunRecords(api: Api, env: Env, config: map<string, JsValue>, state: StreamState, bound: nat)
    requires EndsBy(EventsPager(api, Base.StartDate(config, state, env), env.today), bound)
    ensures var walk := Paginate(EventsPager(api, Base.StartDate(config, state, env), env.today), 0, bound);
      var run := EventsRun(api, env, config, state, bound);
      && RecordsOf(run.out) == EventRecs(KeptEvents(env, PriorWatermark(state), AllItems(walk.pages)), env)
      && run.watermark == AdvanceAll(PriorWatermark(state), EventTimes(AllItems(walk.pages), env))
      && Ordered(RecordsOf(run.out), PriorWatermark(state), run.watermark)
  {
    var walk := Paginate(EventsPager(api, Base.StartDate(config, state, env), env.today), 0, bound);
    var wm := PriorWatermark(state);
    EventsRunWellFormed(api, env, config, state, bound);
    EventStepFacts(env);
    forall p ensures RecordsOf(PageLog(p)) == [] {
      RecordsOfNone(PageLog(p));
    }
    PagedIsScan(EventStep(env), PageLog, wm, walk.pages);
    EventScanWatermark(env, wm, AllItems(walk.pages));
    EventScanOrdered(env, wm, AllItems(walk.pages));
    EventScanRecords(env, wm, AllItems(walk.pages));
  }
}
