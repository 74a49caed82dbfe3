/** The `participants` stream: lists the rooms of the sync window with a single request, then
    pages through each room's participants and emits one record per participant, tracking the
    latest join time as its watermark. No participant is skipped because of the watermark, and
    any failed request ends the run. */
module Participants {
  import opened Values
  import opened Records
  import opened Messages
  import opened Api
  import opened Paging
  import Base

  const Name: string := "participants"
  const ErrorPrefix: string := "Error syncing participants: "
  const Completed: string := "Completed sync for participants stream"

  // ---------------------------------------------------------------------------------------------
  // Records

  /** Whole seconds between joining and leaving, rounded down; null unless both times are set,
      and null (a NaN) when either does not parse. */
  function Duration(p: RawParticipant, env: Env): (d: Option<int>)
    ensures d.Some? <==>
      Truthy(p.joinedAt) && Truthy(p.leftAt) && env.parseDate(p.joinedAt).Ms? && env.parseDate(p.leftAt).Ms?
    ensures d.Some? ==>
      var span := env.parseDate(p.leftAt).ms - env.parseDate(p.joinedAt).ms;
      d.value * 1000 <= span < d.value * 1000 + 1000
  {
    if Truthy(p.joinedAt) && Truthy(p.leftAt) then
      var joinTime := env.parseDate(p.joinedAt);
      var leftTime := env.parseDate(p.leftAt);
      if joinTime.Ms? && leftTime.Ms? then Some((leftTime.ms - joinTime.ms) / 1000) else None
    else None
  }

  /** The lifecycle label: still in the room, left, or dropped with an error. */
  function LifecycleOf(p: RawParticipant): (s: Lifecycle)
    ensures s == Joined <==> !Truthy(p.leftAt)
    ensures s == Left <==> Truthy(p.leftAt) && !Truthy(p.error)
    ensures s == Disconnected <==> Truthy(p.leftAt) && Truthy(p.error)
  {
    if Truthy(p.leftAt) then (if Truthy(p.error) then Disconnected else Left) else Joined
  }

  /** The record of one participant of room `roomId`. */
  function ParticipantRecordOf(p: RawParticipant, roomId: string, env: Env): (r: ParticipantRecord)
    ensures r.participantId == p.sid && r.roomId == roomId && r.timestamp == env.parseDate(p.joinedAt)
    ensures r.duration == Duration(p, env) && r.state == LifecycleOf(p)
    ensures r.isPublisher == Truthy(p.publisher) && r.isSubscriber == Truthy(p.subscriber)
    ensures Truthy(p.name) ==> r.name == p.name
    ensures !Truthy(p.name) ==> r.name == p.identity
    ensures Truthy(p.userAgent) ==> r.userAgent == p.userAgent
    ensures !Truthy(p.userAgent) ==> r.userAgent == Str("")
    ensures r.identity == p.identity && r.joinedAt == p.joinedAt
    ensures Truthy(p.leftAt) ==> r.leftAt == p.leftAt
    ensures !Truthy(p.leftAt) ==> r.leftAt == Null
    ensures Truthy(p.metadata) ==> r.metadata == p.metadata
    ensures !Truthy(p.metadata) ==> r.metadata == EmptyObject
    ensures Truthy(p.ipAddress) ==> r.ipAddress == p.ipAddress
    ensures !Truthy(p.ipAddress) ==> r.ipAddress == Str("")
    ensures Truthy(p.region) ==> r.region == p.region
    ensures !Truthy(p.region) ==> r.region == Str("")
  {
    ParticipantRecord(
      participantId := p.sid,
      roomId := roomId,
      timestamp := env.parseDate(p.joinedAt),
      identity := p.identity,
      name := Or(p.name, p.identity),
      joinedAt := p.joinedAt,
      leftAt := Or(p.leftAt, Null),
      duration := Duration(p, env),
      state := LifecycleOf(p),
      isPublisher := Truthy(p.publisher),
      isSubscriber := Truthy(p.subscriber),
      metadata := Or(p.metadata, EmptyObject),
      userAgent := Or(p.userAgent, Str("")),
      ipAddress := Or(p.ipAddress, Str("")),
      region := Or(p.region, Str("")))
  }

  /** The body of the `for (const participant of participants)` loop. */
  function ParticipantStep(env: Env, roomId: string): (int, RawParticipant) -> Emission {
    (wm: int, p: RawParticipant) =>
      var record := ParticipantRecordOf(p, roomId, env);
      Emission([RecordMessage(Name, ParticipantRec(record))], Advance(wm, record.timestamp))
  }

  /** The line written after a non-empty page of a room's participants arrives. */
  function PageLog(roomId: string): Page<RawParticipant> -> seq<Message> {
    (page: Page<RawParticipant>) =>
      if |page.items| == 0 then []
      else [InfoLog("Processing " + NatToString(|page.items|) + " participants for room " + roomId)]
  }

  /** The room list: `{ from, to: today, limit: 100 }`, without an offset. */
  function RoomsQuery(from: JsValue, today: string): Query {
    Query(from, Some(today), Some(PageLimit), None, None)
  }

  /** `{ limit: 100, offset }` on `/rooms/{roomId}/participants` */
  function ParticipantsPager(api: Api, roomId: string): Pager<RawParticipant> {
    (offset: nat) => api.participants(roomId, Query(Undefined, None, Some(PageLimit), Some(offset), None))
  }

  function Head(from: JsValue, env: Env): seq<Message> {
    [InfoLog("Starting sync for participants stream"),
     InfoLog("Fetching participants since " + Display(from, env.showNumber))]
  }

  function FoundLog(count: nat): Message {
    InfoLog("Found " + NatToString(count) + " rooms to process for participants")
  }

  function RoomLog(roomId: string): Message {
    InfoLog("Fetching participants for room " + roomId)
  }

  // ---------------------------------------------------------------------------------------------
  // The walk over rooms

  /** Every room's participant list ends by offset `bound`. */
  ghost predicate RoomsEnd(api: Api, rooms: seq<RawRoom>, bound: nat) {
    forall i | 0 <= i < |rooms| :: EndsBy(ParticipantsPager(api, rooms[i].sid), bound)
  }

  /** What the walk over rooms wrote, the watermark after it, and the error that ended it. */
  datatype Visit = Visit(out: seq<Message>, wm: int, failure: Option<JsError>)

  /** One room: its log line, then its pages of participants. A failed request writes nothing
      more (the page line follows a non-empty page only). */
  function RoomVisit(api: Api, env: Env, room: RawRoom, wm: int, ghost bound: nat): Visit
    requires EndsBy(ParticipantsPager(api, room.sid), bound)
  {
    var walk := Paginate(ParticipantsPager(api, room.sid), 0, bound);
    var body := Paged(ParticipantStep(env, room.sid), PageLog(room.sid), wm, walk.pages);
    Visit([RoomLog(room.sid)] + body.out, body.wm, Failed(walk))
  }

  /** The `for (const room of rooms)` loop: the rooms in order, the first failure ending it. */
  function Traverse(api: Api, env: Env, rooms: seq<RawRoom>, wm: int, ghost bound: nat): Visit
    requires RoomsEnd(api, rooms, bound)
    decreases |rooms|
  {
    if rooms == [] then Visit([], wm, None)
    else
      var prev := Traverse(api, env, rooms[..|rooms| - 1], wm, bound);
      if prev.failure.Some? then prev
      else
        var v := RoomVisit(api, env, rooms[|rooms| - 1], prev.wm, bound);
        Visit(prev.out + v.out, v.wm, v.failure)
  }

  /** Rooms after a failure are not visited. */
  lemma {:induction false} TraverseStops(api: Api, env: Env, rooms: seq<RawRoom>, wm: int, bound: nat, k: nat, j: nat)
    requires RoomsEnd(api, rooms, bound)
    requires k <= j <= |rooms|
    requires Traverse(api, env, rooms[..k], wm, bound).failure.Some?
    ensures Traverse(api, env, rooms[..j], wm, bound) == Traverse(api, env, rooms[..k], wm, bound)
    decreases j
  {
    if j > k {
      TraverseStops(api, env, rooms, wm, bound, k, j - 1);
      TraverseKeepsFailure(api, env, rooms, wm, bound, j);
    }
  }

  /** A walk that has failed is not extended by a further room. */
  lemma TraverseKeepsFailure(api: Api, env: Env, rooms: seq<RawRoom>, wm: int, bound: nat, j: nat)
    requires RoomsEnd(api, rooms, bound) && 0 < j <= |rooms|
    requires Traverse(api, env, rooms[..j - 1], wm, bound).failure.Some?
    ensures Traverse(api, env, rooms[..j], wm, bound) == Traverse(api, env, rooms[..j - 1], wm, bound)
  {
    assert rooms[..j][..j - 1] == rooms[..j - 1];
  }

  /** Extending the walk by the room after a prefix that did not fail. */
  lemma TraverseNext(api: Api, env: Env, rooms: seq<RawRoom>, wm: int, bound: nat, i: nat)
    requires RoomsEnd(api, rooms, bound)
    requires i < |rooms|
    requires Traverse(api, env, rooms[..i], wm, bound).failure.None?
    ensures var prev := Traverse(api, env, rooms[..i], wm, bound);
      var v := RoomVisit(api, env, rooms[i], prev.wm, bound);
      Traverse(api, env, rooms[..i + 1], wm, bound) == Visit(prev.out + v.out, v.wm, v.failure)
  {
    assert rooms[..i + 1][..i] == rooms[..i];
  }

  /** Holds when the room list, if it is fetched, names only rooms whose participants end by
      `bound`. */
  ghost predicate Bounded(api: Api, from: JsValue, today: string, bound: nat) {
    var response := api.rooms(RoomsQuery(from, today));
    response.Success? ==> RoomsEnd(api, Items(response.value), bound)
  }

  /** What a `read()` of the participants stream writes and returns. */
  function ParticipantsRun(api: Api, env: Env, config: map<string, JsValue>, state: StreamState, ghost bound: nat): Run
    requires Bounded(api, Base.StartDate(config, state, env), env.today, bound)
  {
    var from := Base.StartDate(config, state, env);
    var response := api.rooms(RoomsQuery(from, env.today));
    if response.Failure? then
      Close(Name, ErrorPrefix, Completed, Head(from, env), PriorWatermark(state), Some(response.error), state)
    else
      var rooms := Items(response.value);
      var v := Traverse(api, env, rooms, PriorWatermark(state), bound);
      Close(Name, ErrorPrefix, Completed, Head(from, env) + [FoundLog(|rooms|)] + v.out, v.wm, v.failure, state)
  }

  class ParticipantsStream {
    const base: Base.BaseStream
    const cursorField: string := CursorField

    predicate Valid()
      reads base
    {
      base.streamName == Name
    }

    constructor (config: map<string, JsValue>, streamConfig: JsValue, state: Option<StreamState>)
      ensures Valid() && fresh(base)
      ensures base.config == config && base.streamConfig == streamConfig
      ensures base.state == (if state.Some? then state.value else map[])
      ensures base.output == []
    {
      var b := new Base.BaseStream("ParticipantsStream", config, streamConfig, state);
      b.streamName := Name;
      base := b;
    }

    function SourceDefinedPrimaryKey(): (key: seq<seq<string>>)
      ensures key == [["participant_id", "room_id", CursorField]]
    {
      [["participant_id", "room_id", "timestamp"]]
    }

    function DefaultCursorField(): (field: seq<string>)
      ensures field == Base.DefaultCursorField()
    {
      [cursorField]
    }

    /** The `for (const participant of participants)` loop. */
    method EmitParticipants(env: Env, roomId: string, participants: seq<RawParticipant>, wm: int)
      returns (latestTimestamp: int)
      requires Valid()
      modifies base`output
      ensures Valid()
      ensures var e := Scan(ParticipantStep(env, roomId), wm, participants);
        base.output == old(base.output) + e.out && latestTimestamp == e.wm
    {
      latestTimestamp := wm;
      for i := 0 to |participants|
        invariant base.output == old(base.output) + Scan(ParticipantStep(env, roomId), wm, participants[..i]).out
        invariant latestTimestamp == Scan(ParticipantStep(env, roomId), wm, participants[..i]).wm
      {
        var record := ParticipantRecordOf(participants[i], roomId, env);
        if record.timestamp.Ms? && record.timestamp.ms > latestTimestamp {
          latestTimestamp := record.timestamp.ms;
        }
        base.EmitRecord(ParticipantRec(record));
        assert participants[..i + 1][..i] == participants[..i];
      }
      assert participants[..|participants|] == participants;
    }

    /** One turn of the paging loop of one room. */
    method FetchPage(api: Api, env: Env, roomId: string, offset: nat, wm: int)
      returns (response: Result<seq<RawParticipant>, JsError>, latestTimestamp: int)
      requires Valid()
      modifies base`output
      ensures Valid()
      ensures var answer := ParticipantsPager(api, roomId)(offset);
        && (answer.Failure? ==>
              response == Failure(answer.error) && latestTimestamp == wm && base.output == old(base.output))
        && (answer.Success? ==>
              var e := Scan(ParticipantStep(env, roomId), wm, Items(answer.value));
              && response == Success(Items(answer.value)) && latestTimestamp == e.wm
              && base.output == old(base.output) + PageLog(roomId)(Page(offset, Items(answer.value))) + e.out)
    {
      var answer := api.participants(roomId, Query(Undefined, None, Some(PageLimit), Some(offset), None));
      latestTimestamp := wm;
      if answer.Failure? {
        return Failure(answer.error), latestTimestamp;
      }
      var participants := Items(answer.value);
      if |participants| != 0 {
        base.EmitLog("INFO", "Processing " + NatToString(|participants|) + " participants for room " + roomId);
        latestTimestamp := EmitParticipants(env, roomId, participants, latestTimestamp);
      }
      response := Success(participants);
    }

    /** The `while (hasMorePages)` loop over one room's participants. */
    method ReadPages(api: Api, env: Env, roomId: string, wm: int, ghost bound: nat)
      returns (latestTimestamp: int, error: Option<JsError>)
      requires Valid()
      requires EndsBy(ParticipantsPager(api, roomId), bound)
      modifies base`output
      ensures Valid()
      ensures var walk := Paginate(ParticipantsPager(api, roomId), 0, bound);
        var body := Paged(ParticipantStep(env, roomId), PageLog(roomId), wm, walk.pages);
        base.output == old(base.output) + body.out && latestTimestamp == body.wm && error == Failed(walk)
    {
      var hasMorePages := true;
      var offset: nat := 0;
      latestTimestamp := wm;
      ghost var fetch := ParticipantsPager(api, roomId);
      ghost var walk := Paginate(fetch, 0, bound);
      ghost var body := Emission([], wm);
      ghost var k := 0;
      while hasMorePages
        invariant k <= |walk.pages|
        invariant hasMorePages ==> Paginate(fetch, offset, bound) == Walk(walk.pages[k..], walk.failure)
        invariant !hasMorePages ==> k == |walk.pages| && walk.failure.None?
        invariant body == Paged(ParticipantStep(env, roomId), PageLog(roomId), wm, walk.pages[..k])
        invariant base.output == old(base.output) + body.out && latestTimestamp == body.wm
        decreases |walk.pages| - k, hasMorePages
      {
        var response;
        response, latestTimestamp := FetchPage(api, env, roomId, offset, latestTimestamp);
        PaginateTurn(fetch, offset, bound, walk, k);
        if response.Failure? {
          assert walk.pages[..k] == walk.pages;
          return latestTimestamp, Some(response.error);
        }
        var participants := response.value;
        PagedExtend(ParticipantStep(env, roomId), PageLog(roomId), wm, walk.pages, k, old(base.output));
        body := Paged(ParticipantStep(env, roomId), PageLog(roomId), wm, walk.pages[..k + 1]);
        k := k + 1;
        offset := offset + |participants|;
        hasMorePages := |participants| == PageLimit;
      }
      assert walk.pages[..k] == walk.pages;
      error := None;
    }

    /** One turn of the loop over rooms: the room's log line, then its participants. */
    method VisitRoom(api: Api, env: Env, room: RawRoom, wm: int, ghost bound: nat)
      returns (latestTimestamp: int, error: Option<JsError>)
      requires Valid()
      requires EndsBy(ParticipantsPager(api, room.sid), bound)
      modifies base`output
      ensures Valid()
      ensures var v := RoomVisit(api, env, room, wm, bound);
        base.output == old(base.output) + v.out && latestTimestamp == v.wm && error == v.failure
    {
      var roomId := room.sid;
      base.EmitLog("INFO", "Fetching participants for room " + roomId);
      latestTimestamp, error := ReadPages(api, env, roomId, wm, bound);
      ghost var walk := Paginate(ParticipantsPager(api, roomId), 0, bound);
      Assoc(old(base.output), [RoomLog(roomId)], Paged(ParticipantStep(env, roomId), PageLog(roomId), wm, walk.pages).out);
    }

    /** The `for (const room of rooms)` loop; a failed request ends it. */
    method VisitRooms(api: Api, env: Env, rooms: seq<RawRoom>, wm: int, ghost bound: nat)
      returns (latestTimestamp: int, error: Option<JsError>)
      requires Valid()
      requires RoomsEnd(api, rooms, bound)
      modifies base`output
      ensures Valid()
      ensures var v := Traverse(api, env, rooms, wm, bound);
        base.output == old(base.output) + v.out && latestTimestamp == v.wm && error == v.failure
    {
      latestTimestamp := wm;
      error := None;
      ghost var prev := Visit([], wm, None);
      for i := 0 to |rooms|
        invariant prev == Traverse(api, env, rooms[..i], wm, bound)
        invariant prev.failure.None? && error.None?
        invariant base.output == old(base.output) + prev.out && latestTimestamp == prev.wm
      {
        latestTimestamp, error := VisitRoom(api, env, rooms[i], latestTimestamp, bound);
        TraverseNext(api, env, rooms, wm, bound, i);
        ghost var v := RoomVisit(api, env, rooms[i], prev.wm, bound);
        Assoc(old(base.output), prev.out, v.out);
        prev := Visit(prev.out + v.out, v.wm, v.failure);
        if error.Some? {
          TraverseStops(api, env, rooms, wm, bound, i + 1, |rooms|);
          assert rooms[..|rooms|] == rooms;
          return;
        }
      }
      assert rooms[..|rooms|] == rooms;
    }

    /** `read()`: the method writes exactly the lines of `ParticipantsRun` and returns its result. */
    method Read(api: Api, env: Env, ghost bound: nat) returns (result: Result<StreamState, JsError>)
      requires Valid()
      requires Bounded(api, Base.StartDate(base.config, base.state, env), env.today, bound)
      modifies base`output
      ensures Valid()
      ensures var run := ParticipantsRun(api, env, base.config, base.state, bound);
        base.output == old(base.output) + run.out && result == run.result
    {
      var state := base.state;
      base.EmitLog("INFO", "Starting sync for participants stream");
      var startDate := Base.StartDate(base.config, state, env);
      base.EmitLog("INFO", "Fetching participants since " + Display(startDate, env.showNumber));
      assert base.output == old(base.output) + Head(startDate, env);
      var roomsResponse := api.rooms(RoomsQuery(startDate, env.today));
      if roomsResponse.Failure? {
        base.EmitLog("ERROR", ErrorPrefix + roomsResponse.error.message);
        result := Failure(roomsResponse.error);
      } else {
        var rooms := Items(roomsResponse.value);
        base.EmitLog("INFO", "Found " + NatToString(|rooms|) + " rooms to process for participants");
        var latestTimestamp, error := VisitRooms(api, env, rooms, PriorWatermark(state), bound);
        if error.Some? {
          base.EmitLog("ERROR", ErrorPrefix + error.value.message);
          result := Failure(error.value);
        } else {
          result := base.Conclude(Completed, state, latestTimestamp);
        }
      }
      ReadAssembles(api, env, base.config, state, bound, old(base.output), base.output, result);
    }
  }

  /** The lines `Read` writes, piece by piece, make up the lines of `ParticipantsRun`. */
  lemma ReadAssembles(api: Api, env: Env, config: map<string, JsValue>, state: StreamState, bound: nat,
                      before: seq<Message>, after: seq<Message>, result: Result<StreamState, JsError>)
    requires Bounded(api, Base.StartDate(config, state, env), env.today, bound)
    requires var from := Base.StartDate(config, state, env);
      var response := api.rooms(RoomsQuery(from, env.today));
      && (response.Failure? ==>
            && after == before + Head(from, env) + [ErrorLog(ErrorPrefix, response.error)]
            && result == Failure(response.error))
      && (response.Success? ==>
            var rooms := Items(response.value);
            var v := Traverse(api, env, rooms, PriorWatermark(state), bound);
            && (v.failure.Some? ==>
                  && after == before + Head(from, env) + [FoundLog(|rooms|)] + v.out + [ErrorLog(ErrorPrefix, v.failure.value)]
                  && result == Failure(v.failure.value))
            && (v.failure.None? ==>
                  && after == before + Head(from, env) + [FoundLog(|rooms|)] + v.out + Finish(Name, Completed, [], v.wm, state).out
                  && result == Finish(Name, Completed, [], v.wm, state).result))
    ensures var run := ParticipantsRun(api, env, config, state, bound);
      after == before + run.out && result == run.result
  {
    var from := Base.StartDate(config, state, env);
    var response := api.rooms(RoomsQuery(from, env.today));
    var head := Head(from, env);
    if response.Failure? {
      Assoc(before, head, [ErrorLog(ErrorPrefix, response.error)]);
    } else {
      var rooms := Items(response.value);
      var v := Traverse(api, env, rooms, PriorWatermark(state), bound);
      Assoc(before, head, [FoundLog(|rooms|)]);
      Assoc(before, head + [FoundLog(|rooms|)], v.out);
      var out := head + [FoundLog(|rooms|)] + v.out;
      if v.failure.Some? {
        Assoc(before, out, [ErrorLog(ErrorPrefix, v.failure.value)]);
      } else {
        FinishAppends(Name, Completed, out, v.wm, state);
        Assoc(before, out, Finish(Name, Completed, [], v.wm, state).out);
      }
    }
  }

  // ---------------------------------------------------------------------------------------------
  // Properties of a run

  /** A participant, with the room it was listed under. */
  datatype Seen = Seen(roomId: string, participant: RawParticipant)

  function Tagged(roomId: string, ps: seq<RawParticipant>): seq<Seen> {
    seq(|ps|, i requires 0 <= i < |ps| => Seen(roomId, ps[i]))
  }

  function SeenRec(seen: Seen, env: Env): Rec {
    ParticipantRec(ParticipantRecordOf(seen.participant, seen.roomId, env))
  }

  function SeenRecs(seen: seq<Seen>, env: Env): seq<Rec> {
    seq(|seen|, i requires 0 <= i < |seen| => SeenRec(seen[i], env))
  }

  lemma SeenAppend(a: seq<Seen>, b: seq<Seen>, env: Env)
    ensures SeenRecs(a + b, env) == SeenRecs(a, env) + SeenRecs(b, env)
    ensures JoinTimes(a + b, env) == JoinTimes(a, env) + JoinTimes(b, env)
  {
    var ab := a + b;
    assert forall i | |a| <= i < |ab| :: ab[i] == b[i - |a|];
  }

  function JoinTimes(seen: seq<Seen>, env: Env): seq<Epoch> {
    seq(|seen|, i requires 0 <= i < |seen| => env.parseDate(seen[i].participant.joinedAt))
  }

  /** The paging walk over one room's participants. */
  function WalkOf(api: Api, room: RawRoom, ghost bound: nat): Walk<RawParticipant>
    requires EndsBy(ParticipantsPager(api, room.sid), bound)
  {
    Paginate(ParticipantsPager(api, room.sid), 0, bound)
  }

  /** Some room's participant list could not be fetched in full. */
  ghost predicate AnyFails(api: Api, rooms: seq<RawRoom>, bound: nat)
    requires RoomsEnd(api, rooms, bound)
  {
    exists i | 0 <= i < |rooms| :: WalkOf(api, rooms[i], bound).failure.Some?
  }

  /** Every participant the walk fetched, room by room and page by page, up to the first room
      whose walk failed (that room's pages before the failure included). */
  ghost function Fetched(api: Api, rooms: seq<RawRoom>, bound: nat): seq<Seen>
    requires RoomsEnd(api, rooms, bound)
    decreases |rooms|
  {
    if rooms == [] then []
    else
      var init := rooms[..|rooms| - 1];
      var room := rooms[|rooms| - 1];
      if AnyFails(api, init, bound) then Fetched(api, init, bound)
      else Fetched(api, init, bound) + Tagged(room.sid, AllItems(WalkOf(api, room, bound).pages))
  }

  /** The participant loop emits one record per participant, in order, each under the room's id,
      and leaves the watermark at the latest join time seen (or where it was). */
  lemma {:induction false} ParticipantScan(env: Env, roomId: string, wm: int, ps: seq<RawParticipant>)
    ensures var e := Scan(ParticipantStep(env, roomId), wm, ps);
      && RecordsOf(e.out) == SeenRecs(Tagged(roomId, ps), env)
      && e.wm == AdvanceAll(wm, JoinTimes(Tagged(roomId, ps), env))
    decreases |ps|
  {
    if ps != [] {
      var init := ps[..|ps| - 1];
      ParticipantScan(env, roomId, wm, init);
      var prev := Scan(ParticipantStep(env, roomId), wm, init);
      var record := ParticipantRecordOf(ps[|ps| - 1], roomId, env);
      RecordsOfAppend(prev.out, [RecordMessage(Name, ParticipantRec(record))]);
      assert SeenRecs(Tagged(roomId, ps), env) == SeenRecs(Tagged(roomId, init), env) + [SeenRec(Seen(roomId, ps[|ps| - 1]), env)];
      assert JoinTimes(Tagged(roomId, ps), env)[..|ps| - 1] == JoinTimes(Tagged(roomId, init), env);
    }
  }

  lemma ParticipantStepFacts(env: Env, roomId: string)
    ensures forall w, x :: NoStates(ParticipantStep(env, roomId)(w, x).out)
    ensures forall p :: NoStates(PageLog(roomId)(p)) && RecordsOf(PageLog(roomId)(p)) == []
  {
    forall p ensures RecordsOf(PageLog(roomId)(p)) == [] {
      RecordsOfNone(PageLog(roomId)(p));
    }
  }

  /** One room's visit writes no STATE line; its records and watermark are those of the
      participants its walk fetched. */
  lemma RoomVisitFacts(api: Api, env: Env, room: RawRoom, wm: int, bound: nat)
    requires EndsBy(ParticipantsPager(api, room.sid), bound)
    ensures var v := RoomVisit(api, env, room, wm, bound);
      var seen := Tagged(room.sid, AllItems(WalkOf(api, room, bound).pages));
      && NoStates(v.out) && v.failure == Failed(WalkOf(api, room, bound))
      && RecordsOf(v.out) == SeenRecs(seen, env) && v.wm == AdvanceAll(wm, JoinTimes(seen, env))
  {
    var walk := WalkOf(api, room, bound);
    var step := ParticipantStep(env, room.sid);
    var body := Paged(step, PageLog(room.sid), wm, walk.pages);
    ParticipantStepFacts(env, room.sid);
    PagedIsScan(step, PageLog(room.sid), wm, walk.pages);
    PagedNoStates(step, PageLog(room.sid), wm, walk.pages);
    ParticipantScan(env, room.sid, wm, AllItems(walk.pages));
    RecordsOfAppend([RoomLog(room.sid)], body.out);
    NoStatesAppend([RoomLog(room.sid)], body.out);
  }

  /** A failure in the first rooms is a failure of the whole list. */
  lemma AnyFailsPrefix(api: Api, rooms: seq<RawRoom>, bound: nat)
    requires rooms != [] && RoomsEnd(api, rooms, bound)
    ensures AnyFails(api, rooms, bound) <==>
      AnyFails(api, rooms[..|rooms| - 1], bound) || WalkOf(api, rooms[|rooms| - 1], bound).failure.Some?
  {
    var init := rooms[..|rooms| - 1];
    if AnyFails(api, rooms, bound) && !WalkOf(api, rooms[|rooms| - 1], bound).failure.Some? {
      var i :| 0 <= i < |rooms| && WalkOf(api, rooms[i], bound).failure.Some?;
      assert init[i] == rooms[i];
    }
    if AnyFails(api, init, bound) {
      var i :| 0 <= i < |init| && WalkOf(api, init[i], bound).failure.Some?;
      assert rooms[i] == init[i];
    }
  }

  /** The walk over rooms fails exactly when some room's participants could not be fetched. */
  lemma {:induction false} TraverseFails(api: Api, env: Env, rooms: seq<RawRoom>, wm: int, bound: nat)
    requires RoomsEnd(api, rooms, bound)
    ensures Traverse(api, env, rooms, wm, bound).failure.Some? <==> AnyFails(api, rooms, bound)
    decreases |rooms|
  {
    if rooms != [] {
      var init := rooms[..|rooms| - 1];
      TraverseFails(api, env, init, wm, bound);
      AnyFailsPrefix(api, rooms, bound);
    }
  }

  /** The walk over rooms, flattened: it writes no STATE line; its records are those of every
      participant fetched, in room order and then page order, each under its own room's id; and
      its watermark is the latest join time among them and the prior watermark. */
  lemma {:induction false} TraverseRecords(api: Api, env: Env, rooms: seq<RawRoom>, wm: int, bound: nat)
    requires RoomsEnd(api, rooms, bound)
    ensures var v := Traverse(api, env, rooms, wm, bound);
      var seen := Fetched(api, rooms, bound);
      && NoStates(v.out)
      && RecordsOf(v.out) == SeenRecs(seen, env)
      && v.wm == AdvanceAll(wm, JoinTimes(seen, env))
    decreases |rooms|
  {
    if rooms != [] {
      var init := rooms[..|rooms| - 1];
      var room := rooms[|rooms| - 1];
      TraverseRecords(api, env, init, wm, bound);
      TraverseFails(api, env, init, wm, bound);
      var prev := Traverse(api, env, init, wm, bound);
      if prev.failure.None? {
        var v := RoomVisit(api, env, room, prev.wm, bound);
        var a := Fetched(api, init, bound);
        var b := Tagged(room.sid, AllItems(WalkOf(api, room, bound).pages));
        assert Fetched(api, rooms, bound) == a + b;
        RoomVisitFacts(api, env, room, prev.wm, bound);
        RecordsOfAppend(prev.out, v.out);
        NoStatesAppend(prev.out, v.out);
        SeenAppend(a, b, env);
        AdvanceAllAppend(wm, JoinTimes(a, env), JoinTimes(b, env));
      }
    }
  }

  /** The lines before the walk over rooms carry no record and no state. */
  lemma LeadFacts(from: JsValue, env: Env, count: nat)
    ensures NoStates(Head(from, env) + [FoundLog(count)])
    ensures RecordsOf(Head(from, env) + [FoundLog(count)]) == []
  {
    RecordsOfNone(Head(from, env) + [FoundLog(count)]);
  }

  /** Once the room list is in: the run keeps the contract of every `read()`, its records and
      watermark are those of the participants fetched, and it fails exactly when some room's
      participants could not be fetched. */
  lemma ListedRun(api: Api, env: Env, from: JsValue, rooms: seq<RawRoom>, state: StreamState, bound: nat)
    requires RoomsEnd(api, rooms, bound)
    ensures var v := Traverse(api, env, rooms, PriorWatermark(state), bound);
      var run := Close(Name, ErrorPrefix, Completed, Head(from, env) + [FoundLog(|rooms|)] + v.out, v.wm, v.failure, state);
      var seen := Fetched(api, rooms, bound);
      && WellFormedRun(run, Name, ErrorPrefix, Completed, state)
      && RecordsOf(run.out) == SeenRecs(seen, env)
      && run.watermark == AdvanceAll(PriorWatermark(state), JoinTimes(seen, env))
      && (run.result.Failure? <==> AnyFails(api, rooms, bound))
  {
    var v := Traverse(api, env, rooms, PriorWatermark(state), bound);
    var lead := Head(from, env) + [FoundLog(|rooms|)];
    TraverseRecords(api, env, rooms, PriorWatermark(state), bound);
    TraverseFails(api, env, rooms, PriorWatermark(state), bound);
    AdvanceAllIsMax(PriorWatermark(state), JoinTimes(Fetched(api, rooms, bound), env));
    LeadFacts(from, env, |rooms|);
    RecordsOfAppend(lead, v.out);
    NoStatesAppend(lead, v.out);
    CloseWellFormed(Name, ErrorPrefix, Completed, lead + v.out, v.wm, v.failure, state);
  }

  /** A participants run keeps the contract of every `read()`; it fails exactly when the room
      list or some room's participants could not be fetched; its records are those of every
      participant fetched, in room order and then page order, each carrying its own room's id;
      and its watermark is the latest join time among them and the prior watermark. */
  lemma ParticipantsRunRecords(api: Api, env: Env, config: map<string, JsValue>, state: StreamState, bound: nat)
    requires Bounded(api, Base.StartDate(config, state, env), env.today, bound)
    ensures var response := api.rooms(RoomsQuery(Base.StartDate(config, state, env), env.today));
      var run := ParticipantsRun(api, env, config, state, bound);
      var seen := if response.Success? then Fetched(api, Items(response.value), bound) else [];
      && WellFormedRun(run, Name, ErrorPrefix, Completed, state)
      && (run.result.Failure? <==> response.Failure? || AnyFails(api, Items(response.value), bound))
      && RecordsOf(run.out) == SeenRecs(seen, env)
      && run.watermark == AdvanceAll(PriorWatermark(state), JoinTimes(seen, env))
  {
    var from := Base.StartDate(config, state, env);
    var response := api.rooms(RoomsQuery(from, env.today));
    if response.Failure? {
      CloseWellFormed(Name, ErrorPrefix, Completed, Head(from, env), PriorWatermark(state), Some(response.error), state);
      RecordsOfNone(Head(from, env));
    } else {
      ListedRun(api, env, from, Items(response.value), state, bound);
    }
  }
}
