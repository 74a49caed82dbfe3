/** The part every stream shares: the constructor's state handling, the declared sync modes,
    cursor and primary key, and the three ways a stream writes a line of output. */
module Base {
  import opened Values
  import opened Messages
  import opened Api

  datatype SyncMode = FullRefresh | Incremental

  /** `getSupportedSyncModes()` */
  function SupportedSyncModes(): (modes: seq<SyncMode>)
    ensures modes == [FullRefresh, Incremental]
  {
    [FullRefresh, Incremental]
  }

  /** `getSourceDefinedCursor()` */
  function SourceDefinedCursor(): (defined: bool)
    ensures defined
  {
    true
  }

  /** `getDefaultCursorField()` where a stream does not override it. */
  function DefaultCursorField(): (field: seq<string>)
    ensures field == [CursorField]
  {
    [CursorField]
  }

  /** `getSourceDefinedPrimaryKey()` where a stream does not override it. */
  function DefaultPrimaryKey(): (key: seq<seq<string>>)
    ensures key == [["id"]]
  {
    [["id"]]
  }

  /** The date a run asks the API for data from: the configured `start_date`, unless the prior
      state holds a (truthy) watermark, whose calendar day is used instead. */
  function StartDate(config: map<string, JsValue>, state: StreamState, env: Env): JsValue {
    if CursorField in state && state[CursorField] != 0 then Str(env.formatDay(state[CursorField]))
    else Get(config, "start_date")
  }

  /** The start date is taken from the watermark exactly when the prior state holds a non-zero
      one, and from the configuration otherwise. */
  lemma StartDateResumes(config: map<string, JsValue>, state: StreamState, env: Env)
    ensures PriorWatermark(state) != 0 ==> StartDate(config, state, env) == Str(env.formatDay(PriorWatermark(state)))
    ensures PriorWatermark(state) == 0 ==> StartDate(config, state, env) == Get(config, "start_date")
  {
  }

  /** The shared state of a stream. `output` stands for the lines the stream has written to
      standard output, oldest first. */
  class BaseStream {
    var config: map<string, JsValue>
    var streamConfig: JsValue
    var state: StreamState
    var streamName: string
    var output: seq<Message>

    /** A missing (null or undefined) prior state becomes the empty state; the stream name is
        the class name without "Stream", lower-cased. */
    constructor (className: string, config: map<string, JsValue>, streamConfig: JsValue, state: Option<StreamState>)
      ensures this.config == config && this.streamConfig == streamConfig
      ensures this.state == (if state.Some? then state.value else map[])
      ensures streamName == ToLower(ReplaceFirst(className, "Stream", ""))
      ensures output == []
    {
      this.config := config;
      this.streamConfig := streamConfig;
      this.state := state.GetOr(map[]);
      this.streamName := ToLower(ReplaceFirst(className, "Stream", ""));
      this.output := [];
    }

    /** `read()` of a stream that does not implement it. */
    method Read() returns (result: Result<StreamState, JsError>)
      ensures result == Failure(JsError("read() is not implemented"))
    {
      result := Failure(JsError("read() is not implemented"));
    }

    /** A RECORD line carries this stream's name and the record unchanged. */
    method EmitRecord(record: Rec)
      modifies this`output
      ensures output == old(output) + [RecordMessage(streamName, record)]
    {
      output := output + [RecordMessage(streamName, record)];
    }

    /** A STATE line nests the state under exactly one key, this stream's name. */
    method EmitState(state: StreamState)
      modifies this`output
      ensures output == old(output) + [StateMessage(map[streamName := state])]
    {
      output := output + [StateMessage(map[streamName := state])];
    }

    /** The success tail of every `read()`: the STATE line when the watermark is positive, then
        the completion line; returns the state `read()` resolves to. */
    method Conclude(completed: string, state: StreamState, latestTimestamp: int) returns (result: Result<StreamState, JsError>)
      modifies this`output
      ensures var run := Finish(streamName, completed, [], latestTimestamp, state);
        output == old(output) + run.out && result == run.result
    {
      var next := state;
      if latestTimestamp > 0 {
        next := map[CursorField := latestTimestamp];
        EmitState(next);
      }
      EmitLog("INFO", completed);
      result := Success(next);
    }

    /** A LOG line carries its level and message unchanged. */
    method EmitLog(level: string, message: string)
      modifies this`output
      ensures output == old(output) + [LogMessage(level, message)]
    {
      output := output + [LogMessage(level, message)];
    }
  }
}
