/** The connector message protocol (RECORD, STATE and LOG lines), the per-stream state, and
    the watermark bookkeeping every stream shares: how the prior watermark is read, how a
    timestamp advances it, when an item counts as already synced, and how a run ends. */
module Messages {
  import opened Values
  import opened Records

  /** A stream's state object: `{ timestamp: <epoch ms> }` after a successful run. */
  type StreamState = map<string, int>

  /** The cursor field of all five streams. */
  const CursorField: string := "timestamp"

  /** The `data` of a RECORD message: one canonical record of one of the five streams. */
  datatype Rec =
    | RoomRec(room: RoomRecord)
    | EventRec(event: EventRecord)
    | ParticipantRec(participant: ParticipantRecord)
    | MetricRec(metric: MetricRecord)
    | UsageRec(usage: UsageRecord)

  /** One line of output. The wall-clock `emitted_at` of a RECORD line is not modelled. */
  datatype Message =
    | RecordMessage(stream: string, data: Rec)
    | StateMessage(state: map<string, StreamState>)
    | LogMessage(level: string, message: string)

  function InfoLog(message: string): Message {
    LogMessage("INFO", message)
  }

  /** The ERROR line of a failed run: the stream's prefix ("Error syncing rooms: ") and the
      error's message. */
  function ErrorLog(prefix: string, e: JsError): Message {
    LogMessage("ERROR", prefix + e.message)
  }

  /** Regrouping output; spelled out because the solver handles long concatenations poorly. */
  lemma Assoc(a: seq<Message>, b: seq<Message>, c: seq<Message>)
    ensures a + b + c == a + (b + c)
  {
  }

  // ---------------------------------------------------------------------------------------------
  // Watermark

  /** `state[cursorField] || 0` */
  function PriorWatermark(state: StreamState): int {
    if CursorField in state then state[CursorField] else 0
  }

  /** `if (timestamp > latestTimestamp) latestTimestamp = timestamp`; a NaN never compares greater. */
  function Advance(wm: int, ts: Epoch): (r: int)
    ensures r >= wm
    ensures ts.Ms? ==> r >= ts.ms
    ensures r == wm || (ts.Ms? && r == ts.ms)
  {
    if ts.Ms? && ts.ms > wm then ts.ms else wm
  }

  /** The watermark after advancing `wm` by each of `ts` in turn. */
  function AdvanceAll(wm: int, ts: seq<Epoch>): int {
    if ts == [] then wm else Advance(AdvanceAll(wm, ts[..|ts| - 1]), ts[|ts| - 1])
  }

  /** Advancing by a sequence of timestamps yields their maximum with the starting watermark:
      it is at least the start and every valid timestamp, and it is the start or one of them. */
  lemma {:induction false} AdvanceAllIsMax(wm: int, ts: seq<Epoch>)
    ensures AdvanceAll(wm, ts) >= wm
    ensures forall i | 0 <= i < |ts| && ts[i].Ms? :: AdvanceAll(wm, ts) >= ts[i].ms
    ensures AdvanceAll(wm, ts) == wm || exists i | 0 <= i < |ts| :: ts[i] == Ms(AdvanceAll(wm, ts))
  {
    if ts != [] {
      var init := ts[..|ts| - 1];
      AdvanceAllIsMax(wm, init);
      var r := AdvanceAll(wm, ts);
      if r != wm && r != AdvanceAll(wm, init) {
        assert ts[|ts| - 1] == Ms(r);
      } else if r != wm {
        var i :| 0 <= i < |init| && init[i] == Ms(r);
        assert ts[i] == Ms(r);
      }
    }
  }

  /** Advancing by `a + b` is advancing by `a`, then by `b`. */
  lemma {:induction false} AdvanceAllAppend(wm: int, a: seq<Epoch>, b: seq<Epoch>)
    ensures AdvanceAll(wm, a + b) == AdvanceAll(AdvanceAll(wm, a), b)
    decreases |b|
  {
    if b == [] {
      assert a + b == a;
    } else {
      assert (a + b)[..|a + b| - 1] == a + b[..|b| - 1];
      AdvanceAllAppend(wm, a, b[..|b| - 1]);
    }
  }

  /** `timestamp <= latestTimestamp && latestTimestamp > 0`: the item was synced by an earlier run
      or an earlier item of this one. */
  predicate Skips(ts: Epoch, wm: int) {
    ts.Ms? && ts.ms <= wm && wm > 0
  }

  /** What a stretch of traversal emitted, and the watermark after it. */
  datatype Emission = Emission(out: seq<Message>, wm: int)

  /** A whole `read()`: every line it wrote, the state it returned or the error it re-threw,
      and the in-memory watermark when it stopped. */
  datatype Run = Run(out: seq<Message>, result: Result<StreamState, JsError>, watermark: int)

  /** The success tail of every `read()`: a STATE line when the watermark is positive, then the
      completion log; the returned state is the new one, or the input state untouched. */
  function Finish(stream: string, completed: string, out: seq<Message>, wm: int, state: StreamState): Run {
    if wm > 0 then
      var next := map[CursorField := wm];
      Run(out + [StateMessage(map[stream := next]), InfoLog(completed)], Success(next), wm)
    else
      Run(out + [InfoLog(completed)], Success(state), wm)
  }

  /** The success tail does not depend on what came before it. */
  lemma FinishAppends(stream: string, completed: string, out: seq<Message>, wm: int, state: StreamState)
    ensures var tail := Finish(stream, completed, [], wm, state);
      Finish(stream, completed, out, wm, state) == Run(out + tail.out, tail.result, wm)
  {
  }

  /** The `catch` of every `read()`: an ERROR line, then the error is re-thrown. */
  function Abort(prefix: string, out: seq<Message>, wm: int, e: JsError): Run {
    Run(out + [ErrorLog(prefix, e)], Failure(e), wm)
  }

  // ---------------------------------------------------------------------------------------------
  // Views of an output

  predicate NoStates(out: seq<Message>) {
    forall i | 0 <= i < |out| :: !out[i].StateMessage?
  }

  lemma NoStatesAppend(a: seq<Message>, b: seq<Message>)
    requires NoStates(a) && NoStates(b)
    ensures NoStates(a + b)
  {
    assert forall i | |a| <= i < |a + b| :: (a + b)[i] == b[i - |a|];
  }

  predicate HasState(out: seq<Message>) {
    exists i | 0 <= i < |out| :: out[i].StateMessage?
  }

  /** Once a STATE line is written only LOG lines follow: at most one STATE, after every record. */
  predicate StateAfterTraversal(out: seq<Message>) {
    forall i, j | 0 <= i < j < |out| :: out[i].StateMessage? ==> out[j].LogMessage?
  }

  /** The `data` of the RECORD lines, in order. */
  function RecordsOf(out: seq<Message>): seq<Rec> {
    if out == [] then []
    else
      var last := out[|out| - 1];
      RecordsOf(out[..|out| - 1]) + (if last.RecordMessage? then [last.data] else [])
  }

  lemma {:induction false} RecordsOfAppend(a: seq<Message>, b: seq<Message>)
    ensures RecordsOf(a + b) == RecordsOf(a) + RecordsOf(b)
    decreases |b|
  {
    if b != [] {
      assert (a + b)[..|a + b| - 1] == a + b[..|b| - 1];
      RecordsOfAppend(a, b[..|b| - 1]);
    } else {
      assert a + b == a;
    }
  }

  /** Lines that carry no record drop out of the records of an output. */
  lemma RecordsOfSkip(a: seq<Message>, lines: seq<Message>, b: seq<Message>)
    requires RecordsOf(lines) == []
    ensures RecordsOf(a + lines + b) == RecordsOf(a) + RecordsOf(b)
  {
    RecordsOfAppend(a + lines, b);
    RecordsOfAppend(a, lines);
  }

  lemma RecordsOfSingle(m: Message)
    ensures RecordsOf([m]) == if m.RecordMessage? then [m.data] else []
  {
    assert [m][..0] == [];
  }

  lemma RecordsOfNone(out: seq<Message>)
    requires forall i | 0 <= i < |out| :: !out[i].RecordMessage?
    ensures RecordsOf(out) == []
  {
    if out != [] {
      RecordsOfNone(out[..|out| - 1]);
    }
  }

  /** The contract every stream's `read()` keeps: at most one
      STATE, written after the traversal and only on success; a failure ends with the ERROR line;
      a success ends with the completion line; the returned state carries the final watermark
      exactly when that watermark is positive, and is otherwise the input state. */
  ghost predicate WellFormedRun(run: Run, stream: string, prefix: string, completed: string, prior: StreamState) {
    && StateAfterTraversal(run.out)
    && run.watermark >= PriorWatermark(prior)
    && |run.out| > 0
    && (run.result.Failure? ==>
          NoStates(run.out) && run.out[|run.out| - 1] == ErrorLog(prefix, run.result.error))
    && (run.result.Success? ==>
          && run.out[|run.out| - 1] == InfoLog(completed)
          && (HasState(run.out) <==> run.watermark > 0)
          && (run.watermark > 0 ==>
                && run.result.value == map[CursorField := run.watermark]
                && run.out[|run.out| - 2] == StateMessage(map[stream := run.result.value]))
          && (run.watermark <= 0 ==> run.result.value == prior))
  }

  /** How every `read()` ends: the success tail, or the `catch` when the traversal failed. */
  function Close(stream: string, prefix: string, completed: string, out: seq<Message>, wm: int,
                 failure: Option<JsError>, state: StreamState): Run {
    match failure
    case Some(e) => Abort(prefix, out, wm, e)
    case None => Finish(stream, completed, out, wm, state)
  }

  /** Closing a traversal that wrote no STATE line and did not lower the watermark gives a
      well-formed run with the traversal's records and watermark. */
  lemma CloseWellFormed(stream: string, prefix: string, completed: string, out: seq<Message>, wm: int,
                        failure: Option<JsError>, state: StreamState)
    requires NoStates(out) && wm >= PriorWatermark(state)
    ensures var run := Close(stream, prefix, completed, out, wm, failure, state);
      && WellFormedRun(run, stream, prefix, completed, state)
      && RecordsOf(run.out) == RecordsOf(out) && run.watermark == wm
  {
    var run := Close(stream, prefix, completed, out, wm, failure, state);
    if failure.Some? {
      RecordsOfAppend(out, [ErrorLog(prefix, failure.value)]);
    } else if wm > 0 {
      assert run.out[|out|].StateMessage?;
      var tail := [StateMessage(map[stream := map[CursorField := wm]]), InfoLog(completed)];
      RecordsOfAppend(out, tail);
      RecordsOfNone(tail);
    } else {
      RecordsOfAppend(out, [InfoLog(completed)]);
    }
  }
}
