/** The `rooms` stream: pages through `GET /rooms` and emits one record per room, tracking the
    latest creation time as its watermark. Every room on every page is emitted; this stream does
    not skip rooms at or below the prior watermark. */
module Rooms {
  import opened Values
  import opened Records
  import opened Messages
  import opened Api
  import opened Paging
  import Base

  const Name: string := "rooms"
  const ErrorPrefix: string := "Error syncing rooms: "
  const Completed: string := "Completed sync for rooms stream"

  /** The record of one room; the watermark candidate is `timestamp`. */
  function RoomRecordOf(room: RawRoom, env: Env): (r: RoomRecord)
    ensures r.roomId == room.sid && r.createdAt == room.createdAt
    ensures r.timestamp == env.parseDate(room.createdAt)
    ensures Truthy(r.metadata) && (Truthy(room.metadata) ==> r.metadata == room.metadata)
    ensures !Truthy(room.metadata) ==> r.metadata == EmptyObject
    ensures r.name == room.name && r.participantCount == room.numParticipants
    ensures r.duration == room.duration && r.active == room.active
  {
    RoomRecord(
      roomId := room.sid,
      name := room.name,
      timestamp := env.parseDate(room.createdAt),
      participantCount := room.numParticipants,
      createdAt := room.createdAt,
      duration := room.duration,
      active := room.active,
      metadata := Or(room.metadata, EmptyObject))
  }

  /** The body of the `for (const room of rooms)` loop. */
  function RoomStep(env: Env): (int, RawRoom) -> Emission {
    (wm: int, room: RawRoom) =>
      var record := RoomRecordOf(room, env);
      Emission([RecordMessage(Name, RoomRec(record))], Advance(wm, record.timestamp))
  }

  /** The line written before each page is requested. */
  function PageLog(page: Page<RawRoom>): seq<Message> {
    [InfoLog("Fetching rooms page with offset " + NatToString(page.offset))]
  }

  /** `{ from, to: today, limit: 100, offset }` */
  function RoomsQuery(from: JsValue, today: string, offset: nat): Query {
    Query(from, Some(today), Some(PageLimit), Some(offset), None)
  }

  function RoomsPager(api: Api, from: JsValue, today: string): Pager<RawRoom> {
    (offset: nat) => api.rooms(RoomsQuery(from, today, offset))
  }

  function Head(from: JsValue, env: Env): seq<Message> {
    [InfoLog("Starting sync for rooms stream"), InfoLog("Fetching rooms since " + Display(from, env.showNumber))]
  }

  /** What a `read()` of the rooms stream writes and returns. `bound` is an offset from which the
      server hands out no full page. */
  function RoomsRun(api: Api, env: Env, config: map<string, JsValue>, state: StreamState, ghost bound: nat): Run
    requires EndsBy(RoomsPager(api, Base.StartDate(config, state, env), env.today), bound)
  {
    var from := Base.StartDate(config, state, env);
    var walk := Paginate(RoomsPager(api, from, env.today), 0, bound);
    var body := Paged(RoomStep(env), PageLog, PriorWatermark(state), walk.pages);
    Close(Name, ErrorPrefix, Completed, Head(from, env) + body.out + FailedPageLog(walk, PageLog), body.wm, Failed(walk), state)
  }

  class RoomsStream {
    const base: Base.BaseStream
    const cursorField: string := CursorField

    predicate Valid()
      reads base
    {
      base.streamName == Name
    }

    constructor (config: map<string, JsValue>, streamConfig: JsValue, state: Option<StreamState>)
      ensures Valid() && fresh(base)
      ensures base.config == config && base.streamConfig == streamConfig
      ensures base.state == (if state.Some? then state.value else map[])
      ensures base.output == []
    {
      var b := new Base.BaseStream("RoomsStream", config, streamConfig, state);
      b.streamName := Name;
      base := b;
    }

    function SourceDefinedPrimaryKey(): (key: seq<seq<string>>)
      ensures key == [["room_id", CursorField]]
    {
      [["room_id", "timestamp"]]
    }

    function DefaultCursorField(): (field: seq<string>)
      ensures field == Base.DefaultCursorField()
    {
      [cursorField]
    }

    /** The `for (const room of rooms)` loop: one RECORD line per room, in order. */
    method EmitRooms(env: Env, rooms: seq<RawRoom>, wm: int) returns (latestTimestamp: int)
      requires Valid()
      modifies base`output
      ensures Valid()
      ensures var e := Scan(RoomStep(env), wm, rooms);
        base.output == old(base.output) + e.out && latestTimestamp == e.wm
    {
      latestTimestamp := wm;
      for i := 0 to |rooms|
        invariant base.output == old(base.output) + Scan(RoomStep(env), wm, rooms[..i]).out
        invariant latestTimestamp == Scan(RoomStep(env), wm, rooms[..i]).wm
      {
        var record := RoomRecordOf(rooms[i], env);
        if record.timestamp.Ms? && record.timestamp.ms > latestTimestamp {
          latestTimestamp := record.timestamp.ms;
        }
        base.EmitRecord(RoomRec(record));
        assert rooms[..i + 1][..i] == rooms[..i];
      }
      assert rooms[..|rooms|] == rooms;
    }

    /** One turn of the paging loop: the page's log line, the request at `offset`, and, when it
        succeeds, the page's records. */
    method FetchPage(api: Api, env: Env, from: JsValue, offset: nat, wm: int)
      returns (response: Result<seq<RawRoom>, JsError>, latestTimestamp: int)
      requires Valid()
      modifies base`output
      ensures Valid()
      ensures var answer := RoomsPager(api, from, env.today)(offset);
        && (answer.Failure? ==>
              && response == Failure(answer.error) && latestTimestamp == wm
              && base.output == old(base.output) + PageLog(Page(offset, [])))
        && (answer.Success? ==>
              var e := Scan(RoomStep(env), wm, Items(answer.value));
              && response == Success(Items(answer.value)) && latestTimestamp == e.wm
              && base.output == old(base.output) + PageLog(Page(offset, Items(answer.value))) + e.out)
    {
      base.EmitLog("INFO", "Fetching rooms page with offset " + NatToString(offset));
      var answer := api.rooms(RoomsQuery(from, env.today, offset));
      latestTimestamp := wm;
      if answer.Failure? {
        return Failure(answer.error), latestTimestamp;
      }
      var rooms := Items(answer.value);
      if |rooms| != 0 {
        latestTimestamp := EmitRooms(env, rooms, latestTimestamp);
      }
      response := Success(rooms);
    }

    /** The `while (hasMorePages)` loop of `read()`: pages through the rooms from offset 0,
        writing each page's log line and records; stops at the first page that is not full, or
        at a failed request, whose error it returns. */
    method ReadPages(api: Api, env: Env, from: JsValue, wm: int, ghost bound: nat)
      returns (latestTimestamp: int, error: Option<JsError>)
      requires Valid()
      requires EndsBy(RoomsPager(api, from, env.today), bound)
      modifies base`output
      ensures Valid()
      ensures var walk := Paginate(RoomsPager(api, from, env.today), 0, bound);
        var body := Paged(RoomStep(env), PageLog, wm, walk.pages);
        && latestTimestamp == body.wm
        && (walk.failure.None? ==> error.None? && base.output == old(base.output) + body.out)
        && (walk.failure.Some? ==>
              && error == Some(walk.failure.value.error)
              && base.output == old(base.output) + body.out + PageLog(Page(walk.failure.value.offset, [])))
    {
      var hasMorePages := true;
      var offset: nat := 0;
      latestTimestamp := wm;
      ghost var fetch := RoomsPager(api, from, env.today);
      ghost var walk := Paginate(fetch, 0, bound);
      ghost var body := Emission([], wm);
      ghost var k := 0;
      while hasMorePages
        invariant k <= |walk.pages|
        invariant hasMorePages ==> Paginate(fetch, offset, bound) == Walk(walk.pages[k..], walk.failure)
        invariant !hasMorePages ==> k == |walk.pages| && walk.failure.None?
        invariant body == Paged(RoomStep(env), PageLog, wm, walk.pages[..k])
        invariant base.output == old(base.output) + body.out && latestTimestamp == body.wm
        decreases |walk.pages| - k, hasMorePages
      {
        ghost var before := base.output;
        var response;
        response, latestTimestamp := FetchPage(api, env, from, offset, latestTimestamp);
        PaginateTurn(fetch, offset, bound, walk, k);
        if response.Failure? {
          assert walk.pages[..k] == walk.pages;
          Assoc(old(base.output), body.out, PageLog(Page(offset, [])));
          return latestTimestamp, Some(response.error);
        }
        var rooms := response.value;
        PagedExtend(RoomStep(env), PageLog, wm, walk.pages, k, old(base.output));
        body := Paged(RoomStep(env), PageLog, wm, walk.pages[..k + 1]);
        k := k + 1;
        offset := offset + |rooms|;
        hasMorePages := |rooms| == PageLimit;
      }
      assert walk.pages[..k] == walk.pages;
      error := None;
    }

    /** `read()`: the method writes exactly the lines of `RoomsRun` and returns its result. */
    method Read(api: Api, env: Env, ghost bound: nat) returns (result: Result<StreamState, JsError>)
      requires Valid()
      requires EndsBy(RoomsPager(api, Base.StartDate(base.config, base.state, env), env.today), bound)
      modifies base`output
      ensures Valid()
      ensures var run := RoomsRun(api, env, base.config, base.state, bound);
        base.output == old(base.output) + run.out && result == run.result
    {
      var state := base.state;
      base.EmitLog("INFO", "Starting sync for rooms stream");
      var startDate := Base.StartDate(base.config, state, env);
      base.EmitLog("INFO", "Fetching rooms since " + Display(startDate, env.showNumber));
      assert base.output == old(base.output) + Head(startDate, env);
      var latestTimestamp, error := ReadPages(api, env, startDate, PriorWatermark(state), bound);
      if error.Some? {
        base.EmitLog("ERROR", ErrorPrefix + error.value.message);
        result := Failure(error.value);
      } else {
        result := base.Conclude(Completed, state, latestTimestamp);
      }
      ReadAssembles(api, env, base.config, state, bound, old(base.output), base.output, result);
    }
  }

  /** The lines `Read` writes, piece by piece, make up the lines of `RoomsRun`. */
  lemma ReadAssembles(api: Api, env: Env, config: map<string, JsValue>, state: StreamState, bound: nat,
                      before: seq<Message>, after: seq<Message>, result: Result<StreamState, JsError>)
    requires EndsBy(RoomsPager(api, Base.StartDate(config, state, env), env.today), bound)
    requires var from := Base.StartDate(config, state, env);
      var walk := Paginate(RoomsPager(api, from, env.today), 0, bound);
      var body := Paged(RoomStep(env), PageLog, PriorWatermark(state), walk.pages);
      && (walk.failure.Some? ==>
            && after == before + Head(from, env) + body.out + PageLog(Page(walk.failure.value.offset, []))
                 + [ErrorLog(ErrorPrefix, walk.failure.value.error)]
            && result == Failure(walk.failure.value.error))
      && (walk.failure.None? ==>
            && after == before + Head(from, env) + body.out + Finish(Name, Completed, [], body.wm, state).out
            && result == Finish(Name, Completed, [], body.wm, state).result)
    ensures var run := RoomsRun(api, env, config, state, bound);
      after == before + run.out && result == run.result
  {
    var from := Base.StartDate(config, state, env);
    var walk := Paginate(RoomsPager(api, from, env.today), 0, bound);
    var body := Paged(RoomStep(env), PageLog, PriorWatermark(state), walk.pages);
    var head := Head(from, env);
    Assoc(before, head, body.out);
    if walk.failure.Some? {
      var tail := PageLog(Page(walk.failure.value.offset, []));
      Assoc(before, head + body.out, tail);
      Assoc(before, head + body.out + tail, [ErrorLog(ErrorPrefix, walk.failure.value.error)]);
    } else {
      assert head + body.out + FailedPageLog(walk, PageLog) == head + body.out;
      FinishAppends(Name, Completed, head + body.out, body.wm, state);
      Assoc(before, head + body.out, Finish(Name, Completed, [], body.wm, state).out);
    }
  }

  // ---------------------------------------------------------------------------------------------
  // Properties of a run

  /** The records of a list of rooms, in order. */
  function RoomRecs(rooms: seq<RawRoom>, env: Env): seq<Rec> {
    seq(|rooms|, i requires 0 <= i < |rooms| => RoomRec(RoomRecordOf(rooms[i], env)))
  }

  /** The creation times of a list of rooms, in order. */
  function CreatedTimes(rooms: seq<RawRoom>, env: Env): seq<Epoch> {
    seq(|rooms|, i requires 0 <= i < |rooms| => env.parseDate(rooms[i].createdAt))
  }

  /** The room loop emits one record per room, in order, no STATE line, and leaves the watermark
      at the latest creation time seen (or where it was). */
  lemma {:induction false} RoomScan(env: Env, wm: int, rooms: seq<RawRoom>)
    ensures var e := Scan(RoomStep(env), wm, rooms);
      RecordsOf(e.out) == RoomRecs(rooms, env) && e.wm == AdvanceAll(wm, CreatedTimes(rooms, env))
    decreases |rooms|
  {
    if rooms != [] {
      var init := rooms[..|rooms| - 1];
      RoomScan(env, wm, init);
      var prev := Scan(RoomStep(env), wm, init);
      var record := RoomRecordOf(rooms[|rooms| - 1], env);
      RecordsOfAppend(prev.out, [RecordMessage(Name, RoomRec(record))]);
      assert RoomRecs(rooms, env) == RoomRecs(init, env) + [RoomRec(record)];
      assert CreatedTimes(rooms, env)[..|rooms| - 1] == CreatedTimes(init, env);
    }
  }

  lemma RoomStepFacts(env: Env)
    ensures forall w, x :: NoStates(RoomStep(env)(w, x).out) && RoomStep(env)(w, x).wm >= w
    ensures forall p :: NoStates(PageLog(p)) && RecordsOf(PageLog(p)) == []
  {
    forall p ensures RecordsOf(PageLog(p)) == [] {
      RecordsOfNone(PageLog(p));
    }
  }

  /** A rooms run keeps the contract of every `read()` (at most one STATE line, after the
      records and only on success, carrying the final watermark when it is positive; a failure
      ends in the ERROR line), and its records and watermark are those of its traversal. */
  lemma RoomsRunWellFormed(api: Api, env: Env, config: map<string, JsValue>, state: StreamState, bound: nat)
    requires EndsBy(RoomsPager(api, Base.StartDate(config, state, env), env.today), bound)
    ensures var walk := Paginate(RoomsPager(api, Base.StartDate(config, state, env), env.today), 0, bound);
      var body := Paged(RoomStep(env), PageLog, PriorWatermark(state), walk.pages);
      var run := RoomsRun(api, env, config, state, bound);
      && WellFormedRun(run, Name, ErrorPrefix, Completed, state)
      && RecordsOf(run.out) == RecordsOf(body.out) && run.watermark == body.wm
  {
    var from := Base.StartDate(config, state, env);
    var walk := Paginate(RoomsPager(api, from, env.today), 0, bound);
    RoomStepFacts(env);
    PagedRunWellFormed(Name, ErrorPrefix, Completed, Head(from, env), RoomStep(env), PageLog, walk.pages,
                       FailedPageLog(walk, PageLog), Failed(walk), state);
  }

  /** Every room on every page the server returned is emitted, once, in order, whatever its
      creation time; the final watermark is the latest creation time among them and the prior
      watermark. This holds for a failed run too, for the pages fetched before the failure. */
  lemma RoomsRunRecords(api: Api, env: Env, config: map<string, JsValue>, state: StreamState, bound: nat)
    requires EndsBy(RoomsPager(api, Base.StartDate(config, state, env), env.today), bound)
    ensures var walk := Paginate(RoomsPager(api, Base.StartDate(config, state, env), env.today), 0, bound);
      var rooms := AllItems(walk.pages);
      var run := RoomsRun(api, env, config, state, bound);
      && RecordsOf(run.out) == RoomRecs(rooms, env)
      && run.watermark == AdvanceAll(PriorWatermark(state), CreatedTimes(rooms, env))
  {
    var walk := Paginate(RoomsPager(api, Base.StartDate(config, state, env), env.today), 0, bound);
    var wm := PriorWatermark(state);
    RoomsRunWellFormed(api, env, config, state, bound);
    RoomStepFacts(env);
    PagedIsScan(RoomStep(env), PageLog, wm, walk.pages);
    RoomScan(env, wm, AllItems(walk.pages));
  }
}
