/**
 * The LLM chat API: configuration rows (display-name defaulting, keeping the stored
 * key when none is sent) and one round of the streamed chat reply, where
 * server-sent-event frames are cut from a growing buffer and their deltas are
 * accumulated into content, events and tool calls.
 */
module Llm {
  import opened Wrappers
  import opened Api
  import Text

  type u32 = x: int | 0 <= x <= 0xFFFF_FFFF

  // ---------------------------------------------------------------------------
  // Configuration rows
  // ---------------------------------------------------------------------------

  datatype LlmConfigRequest = LlmConfigRequest(
    provider: string,
    displayName: Option<string>,
    apiBaseUrl: string,
    apiKey: string,
    model: string)

  /** The row `create_config` inserts; a new configuration starts disabled. */
  datatype NewConfigRow = NewConfigRow(
    provider: string, displayName: string, apiBaseUrl: string, apiKey: string, model: string, enabled: bool)

  /** The columns `update_config` sets; `apiKey` is `None` when the stored key is kept. */
  datatype ConfigUpdate = ConfigUpdate(
    provider: string, displayName: string, apiBaseUrl: string, apiKey: Option<string>, model: string)

  /** The name shown for a configuration: the given display name, or the provider's name. */
  function DisplayName(req: LlmConfigRequest): (name: string)
    ensures req.displayName.Some? ==> name == req.displayName.value
    ensures req.displayName.None? ==> name == req.provider
  {
    req.displayName.GetOr(req.provider)
  }

  function CreateRow(req: LlmConfigRequest): (row: NewConfigRow)
    ensures row.displayName == DisplayName(req) && !row.enabled
    ensures row.provider == req.provider && row.apiBaseUrl == req.apiBaseUrl
    ensures row.apiKey == req.apiKey && row.model == req.model
  {
    NewConfigRow(req.provider, DisplayName(req), req.apiBaseUrl, req.apiKey, req.model, false)
  }

  function UpdateColumns(req: LlmConfigRequest): (u: ConfigUpdate)
    ensures u.displayName == DisplayName(req)
    ensures u.apiKey.None? <==> req.apiKey == []
    ensures u.apiKey.Some? ==> u.apiKey.value == req.apiKey
    ensures u.provider == req.provider && u.apiBaseUrl == req.apiBaseUrl && u.model == req.model
  {
    ConfigUpdate(req.provider, DisplayName(req), req.apiBaseUrl,
                 if req.apiKey == [] then None else Some(req.apiKey), req.model)
  }

  const CONFIG_NOT_FOUND: ApiError := ApiError(NOT_FOUND, "配置不存在")

  /** `update_config`, given the number of rows the update touched or the database error. */
  function UpdateConfig(req: LlmConfigRequest, rowsAffected: Result<nat, string>): (r: Result<ConfigUpdate, ApiError>)
    ensures rowsAffected == Ok(0) ==> r == Err(CONFIG_NOT_FOUND)
    ensures rowsAffected.Err? ==> r.Err? && r.error.code == INTERNAL_ERROR
    ensures r.Ok? <==> rowsAffected.Ok? && rowsAffected.value > 0
    ensures r.Ok? ==> r.value == UpdateColumns(req)
  {
    match rowsAffected
    case Err(e) => Err(ApiError(INTERNAL_ERROR, e))
    case Ok(n) => if n == 0 then Err(CONFIG_NOT_FOUND) else Ok(UpdateColumns(req))
  }

  /** `test_connection` builds its configuration with an empty display name when none is given. */
  function TestConnectionDisplayName(req: LlmConfigRequest): (name: string)
    ensures req.displayName.None? ==> name == []
    ensures req.displayName.Some? ==> name == req.displayName.value
  {
    req.displayName.GetOr("")
  }

  /** Creating and updating store the same display name, defaulting to the provider. */
  lemma DisplayNameAgrees(req: LlmConfigRequest)
    ensures CreateRow(req).displayName == UpdateColumns(req).displayName
    ensures req.displayName.None? ==> CreateRow(req).displayName == req.provider
  {
  }

  // ---------------------------------------------------------------------------
  // Streamed chat: decoded chunk shapes
  // ---------------------------------------------------------------------------

  datatype FunctionDelta = FunctionDelta(name: Option<string>, arguments: Option<string>)

  datatype ToolCallDelta = ToolCallDelta(index: u32, id: Option<string>, func: Option<FunctionDelta>)

  datatype Delta = Delta(content: Option<string>, reasoningContent: Option<string>, toolCalls: Option<seq<ToolCallDelta>>)

  datatype Choice = Choice(delta: Delta, finishReason: Option<string>)

  datatype ChatCompletionChunk = ChatCompletionChunk(choices: seq<Choice>)

  /** A tool call assembled from its deltas: id, function name, and the argument text so far. */
  datatype ToolCall = ToolCall(id: string, name: string, arguments: string)

  /** The events the round forwards to the client. */
  datatype StreamEvent = Content(text: string) | Reasoning(text: string) | Error(message: string)

  /** One item of the HTTP body stream: a chunk of text, or a transport error. */
  datatype ChunkResult = Received(text: string) | Failed(message: string)

  /** The JSON decoder for one `data:` payload, seen from outside. */
  type Decoder = string -> Option<ChatCompletionChunk>

  // ---------------------------------------------------------------------------
  // Tool-call deltas
  // ---------------------------------------------------------------------------

  const EMPTY_CALL: ToolCall := ToolCall("", "", "")

  /** The call stored under `index`, or an empty one. */
  function Stored(calls: map<u32, ToolCall>, index: u32): ToolCall {
    if index in calls then calls[index] else EMPTY_CALL
  }

  /** A stored call updated by one delta: a given id or name replaces, argument text appends. */
  function MergedEntry(entry: ToolCall, tc: ToolCallDelta): (r: ToolCall)
    ensures tc.id.Some? ==> r.id == tc.id.value
    ensures tc.id.None? ==> r.id == entry.id
    ensures tc.func.Some? && tc.func.value.name.Some? ==> r.name == tc.func.value.name.value
    ensures !(tc.func.Some? && tc.func.value.name.Some?) ==> r.name == entry.name
    ensures tc.func.Some? && tc.func.value.arguments.Some? ==> r.arguments == entry.arguments + tc.func.value.arguments.value
    ensures !(tc.func.Some? && tc.func.value.arguments.Some?) ==> r.arguments == entry.arguments
  {
    var id := tc.id.GetOr(entry.id);
    var name := if tc.func.Some? then tc.func.value.name.GetOr(entry.name) else entry.name;
    var args := if tc.func.Some? then entry.arguments + tc.func.value.arguments.GetOr("") else entry.arguments;
    ToolCall(id, name, args)
  }

  /** One delta merged into the calls under its index; the other indices are untouched. */
  function MergeCall(calls: map<u32, ToolCall>, tc: ToolCallDelta): (r: map<u32, ToolCall>)
    ensures r.Keys == calls.Keys + {tc.index}
    ensures forall k :: k in calls && k != tc.index ==> r[k] == calls[k]
  {
    calls[tc.index := MergedEntry(Stored(calls, tc.index), tc)]
  }

  /** The deltas of one chunk merged in order. */
  function MergeCalls(calls: map<u32, ToolCall>, tcs: seq<ToolCallDelta>): map<u32, ToolCall> {
    if tcs == [] then calls else MergeCall(MergeCalls(calls, tcs[..|tcs| - 1]), tcs[|tcs| - 1])
  }

  /** The argument text the deltas for `index` carry, in order. */
  function ArgumentsFor(tcs: seq<ToolCallDelta>, index: u32): string {
    if tcs == [] then ""
    else
      var last := tcs[|tcs| - 1];
      ArgumentsFor(tcs[..|tcs| - 1], index)
        + (if last.index == index && last.func.Some? then last.func.value.arguments.GetOr("") else "")
  }

  /** The last id among the deltas for `index`, if any carries one. */
  function LastIdFor(tcs: seq<ToolCallDelta>, index: u32): Option<string> {
    if tcs == [] then None
    else
      var last := tcs[|tcs| - 1];
      if last.index == index && last.id.Some? then last.id else LastIdFor(tcs[..|tcs| - 1], index)
  }

  /** The indices the deltas mention. */
  function Indices(tcs: seq<ToolCallDelta>): set<u32> {
    set i | 0 <= i < |tcs| :: tcs[i].index
  }

  /** Merging adds one call per new index and keeps every stored one. */
  lemma {:induction false} MergeCallsKeys(calls: map<u32, ToolCall>, tcs: seq<ToolCallDelta>)
    ensures MergeCalls(calls, tcs).Keys == calls.Keys + Indices(tcs)
    decreases |tcs|
  {
    if tcs != [] {
      var init := tcs[..|tcs| - 1];
      MergeCallsKeys(calls, init);
      assert Indices(tcs) == Indices(init) + {tcs[|tcs| - 1].index} by {
        forall x | x in Indices(tcs) ensures x in Indices(init) + {tcs[|tcs| - 1].index} {
          var i :| 0 <= i < |tcs| && tcs[i].index == x;
          if i < |tcs| - 1 {
            assert init[i] == tcs[i];
          }
        }
        forall x | x in Indices(init) ensures x in Indices(tcs) {
          var i :| 0 <= i < |init| && init[i].index == x;
          assert tcs[i] == init[i];
        }
      }
    }
  }

  /** Per index, the argument chunks are concatenated in arrival order. */
  lemma {:induction false} MergeCallsArguments(calls: map<u32, ToolCall>, tcs: seq<ToolCallDelta>, index: u32)
    ensures Stored(MergeCalls(calls, tcs), index).arguments == Stored(calls, index).arguments + ArgumentsFor(tcs, index)
    decreases |tcs|
  {
    if tcs != [] {
      MergeCallsArguments(calls, tcs[..|tcs| - 1], index);
    }
  }

  /** Per index, the id is the last one given, or the stored one when no delta gives one. */
  lemma {:induction false} MergeCallsId(calls: map<u32, ToolCall>, tcs: seq<ToolCallDelta>, index: u32)
    ensures Stored(MergeCalls(calls, tcs), index).id == LastIdFor(tcs, index).GetOr(Stored(calls, index).id)
    decreases |tcs|
  {
    if tcs != [] {
      MergeCallsId(calls, tcs[..|tcs| - 1], index);
    }
  }

  /** The loop `for tc in tool_calls` of the stream handler. */
  method MergeToolCalls(calls: map<u32, ToolCall>, tcs: seq<ToolCallDelta>) returns (merged: map<u32, ToolCall>)
    ensures merged == MergeCalls(calls, tcs)
  {
    merged := calls;
    for i := 0 to |tcs|
      invariant merged == MergeCalls(calls, tcs[..i])
    {
      assert tcs[..i + 1][..i] == tcs[..i];
      var tc := tcs[i];
      var entry := if tc.index in merged then merged[tc.index] else EMPTY_CALL;
      if tc.id.Some? {
        entry := entry.(id := tc.id.value);
      }
      if tc.func.Some? {
        if tc.func.value.name.Some? {
          entry := entry.(name := tc.func.value.name.value);
        }
        if tc.func.value.arguments.Some? {
          entry := entry.(arguments := entry.arguments + tc.func.value.arguments.value);
        }
      }
      assert entry == MergedEntry(Stored(merged, tc.index), tc);
      merged := merged[tc.index := entry];
    }
    assert tcs[..|tcs|] == tcs;
  }

  // ---------------------------------------------------------------------------
  // One round of the stream
  // ---------------------------------------------------------------------------

  /** What one round of `chat_stream` keeps between frames. */
  datatype RoundState = RoundState(
    buffer: string,
    calls: map<u32, ToolCall>,
    hasToolCalls: bool,
    collectedContent: string,
    fullResponse: string,
    isToolCallFinish: bool,
    events: seq<StreamEvent>)

  /** The state a round starts in; the full response carries over from earlier rounds. */
  function Fresh(fullResponse: string): RoundState {
    RoundState("", map[], false, "", fullResponse, false, [])
  }

  const SEPARATOR: string := "\n\n"
  const DATA_PREFIX: string := "data: "
  const DONE_PAYLOAD: string := "[DONE]"

  /** A non-empty content delta: collected, added to the full response and sent as an event. */
  function AddContent(st: RoundState, content: string): (r: RoundState)
    ensures r.buffer == st.buffer
  {
    if content != [] then
      st.(collectedContent := st.collectedContent + content,
          fullResponse := st.fullResponse + content,
          events := st.events + [Content(content)])
    else st
  }

  /** A non-empty reasoning delta: sent as an event. */
  function AddReasoning(st: RoundState, reasoning: string): (r: RoundState)
    ensures r.buffer == st.buffer
  {
    if reasoning != [] then st.(events := st.events + [Reasoning(reasoning)]) else st
  }

  /** Tool-call deltas: merged by index, and the round is marked as having tool calls. */
  function AddToolCalls(st: RoundState, toolCalls: Option<seq<ToolCallDelta>>): (r: RoundState)
    ensures r.buffer == st.buffer
  {
    if toolCalls.Some? then st.(hasToolCalls := true, calls := MergeCalls(st.calls, toolCalls.value)) else st
  }

  /** A finish reason of "tool_calls" marks the round as ending for tool execution. */
  function MarkFinish(st: RoundState, finishReason: Option<string>): (r: RoundState)
    ensures r.buffer == st.buffer
  {
    if finishReason == Some("tool_calls") then st.(isToolCallFinish := true) else st
  }

  /** The deltas of the first choice applied to the state, in the order the source handles them. */
  function ApplyChoice(st: RoundState, choice: Choice): (r: RoundState)
    ensures r.buffer == st.buffer
  {
    var st1 := AddContent(st, choice.delta.content.GetOr(""));
    var st2 := AddReasoning(st1, choice.delta.reasoningContent.GetOr(""));
    MarkFinish(AddToolCalls(st2, choice.delta.toolCalls), choice.finishReason)
  }

  /** None of the steps looks at the buffer. */
  lemma ChoiceIgnoresBuffer(st: RoundState, choice: Choice, buffer: string)
    ensures ApplyChoice(st.(buffer := buffer), choice) == ApplyChoice(st, choice).(buffer := buffer)
  {
    var content, reasoning := choice.delta.content.GetOr(""), choice.delta.reasoningContent.GetOr("");
    var st1 := AddContent(st, content);
    assert AddContent(st.(buffer := buffer), content) == st1.(buffer := buffer);
    var st2 := AddReasoning(st1, reasoning);
    assert AddReasoning(st1.(buffer := buffer), reasoning) == st2.(buffer := buffer);
    var st3 := AddToolCalls(st2, choice.delta.toolCalls);
    assert AddToolCalls(st2.(buffer := buffer), choice.delta.toolCalls) == st3.(buffer := buffer);
  }

  /** A `data:` payload: a chunk that decodes and has a choice is applied, anything else ignored. */
  function ApplyData(st: RoundState, data: string, decode: Decoder): (r: RoundState)
    ensures r.buffer == st.buffer
  {
    match decode(data)
    case Some(chunk) => if |chunk.choices| > 0 then ApplyChoice(st, chunk.choices[0]) else st
    case None => st
  }

  /** A frame: only lines starting with "data: " carry payloads. */
  function ApplyFrame(st: RoundState, line: string, decode: Decoder): (r: RoundState)
    ensures r.buffer == st.buffer
    ensures Text.StripPrefix(line, DATA_PREFIX).None? ==> r == st
  {
    match Text.StripPrefix(line, DATA_PREFIX)
    case None => st
    case Some(data) => ApplyData(st, data, decode)
  }

  /** The frame that ends the reply. */
  predicate IsDoneFrame(line: string) {
    Text.StripPrefix(line, DATA_PREFIX) == Some(DONE_PAYLOAD)
  }

  /**
   * The inner loop: cut the buffer at the first "\n\n", apply the frame before it and
   * go on, until no separator is left or a "[DONE]" frame is cut.
   */
  function Drain(st: RoundState, decode: Decoder): RoundState
    decreases |st.buffer|
  {
    match Text.Find(st.buffer, SEPARATOR)
    case None => st
    case Some(pos) =>
      var line := st.buffer[..pos];
      var cut := st.(buffer := st.buffer[pos + 2..]);
      if IsDoneFrame(line) then cut else Drain(ApplyFrame(cut, line, decode), decode)
  }

  /** The outer loop over the body stream; the flag says the round ended on a transport error. */
  function RunRound(st: RoundState, chunks: seq<ChunkResult>, decode: Decoder): (RoundState, bool)
    decreases |chunks|
  {
    if chunks == [] then (st, false)
    else match chunks[0]
      case Failed(message) => (st.(events := st.events + [Error(message)]), true)
      case Received(text) => RunRound(Drain(st.(buffer := st.buffer + text), decode), chunks[1..], decode)
  }

  /**
   * The body of `if let Some(choice) = chunk.choices.first()` for one decoded payload.
   */
  method HandleChoice(st: RoundState, choice: Choice) returns (r: RoundState)
    ensures r == ApplyChoice(st, choice)
  {
    r := st;
    if choice.delta.content.Some? {
      var content := choice.delta.content.value;
      if content != [] {
        r := r.(collectedContent := r.collectedContent + content,
                fullResponse := r.fullResponse + content,
                events := r.events + [Content(content)]);
      }
    }
    assert r == AddContent(st, choice.delta.content.GetOr(""));
    ghost var st1 := r;
    if choice.delta.reasoningContent.Some? {
      var reasoning := choice.delta.reasoningContent.value;
      if reasoning != [] {
        r := r.(events := r.events + [Reasoning(reasoning)]);
      }
    }
    assert r == AddReasoning(st1, choice.delta.reasoningContent.GetOr(""));
    ghost var st2 := r;
    if choice.delta.toolCalls.Some? {
      var merged := MergeToolCalls(r.calls, choice.delta.toolCalls.value);
      r := r.(hasToolCalls := true, calls := merged);
    }
    assert r == AddToolCalls(st2, choice.delta.toolCalls);
    ghost var st3 := r;
    if choice.finishReason.Some? && choice.finishReason.value == "tool_calls" {
      r := r.(isToolCallFinish := true);
    }
    assert r == MarkFinish(st3, choice.finishReason);
  }

  /**
   * One round of `chat_stream`'s reply loop: append each received chunk to the
   * buffer and handle every complete frame in it; stop with an error event at the
   * first transport error.
   */
  method ReadRound(chunks: seq<ChunkResult>, decode: Decoder, fullResponse: string)
    returns (st: RoundState, aborted: bool)
    ensures (st, aborted) == RunRound(Fresh(fullResponse), chunks, decode)
  {
    st := Fresh(fullResponse);
    var i := 0;
    while i < |chunks|
      invariant 0 <= i <= |chunks|
      invariant RunRound(st, chunks[i..], decode) == RunRound(Fresh(fullResponse), chunks, decode)
    {
      assert chunks[i..][0] == chunks[i] && chunks[i..][1..] == chunks[i + 1..];
      match chunks[i]
      case Failed(message) =>
        st := st.(events := st.events + [Error(message)]);
        return st, true;
      case Received(text) =>
        st := st.(buffer := st.buffer + text);
        ghost var drained := Drain(st, decode);
        while true
          invariant Drain(st, decode) == drained
          decreases |st.buffer|
        {
          var pos := Text.Find(st.buffer, SEPARATOR);
          if pos.None? {
            break;
          }
          var line := st.buffer[..pos.value];
          st := st.(buffer := st.buffer[pos.value + 2..]);
          var data := Text.StripPrefix(line, DATA_PREFIX);
          if data.Some? {
            if data.value == DONE_PAYLOAD {
              break;
            }
            var decoded := decode(data.value);
            if decoded.Some? && |decoded.value.choices| > 0 {
              st := HandleChoice(st, decoded.value.choices[0]);
            }
          }
        }
      i := i + 1;
    }
    assert chunks[i..] == [];
    aborted := false;
  }

  // ---------------------------------------------------------------------------
  // Properties of the framing loop
  // ---------------------------------------------------------------------------

  lemma NoSeparatorAt(line: string, q: nat)
    requires !Text.Contains(line, SEPARATOR) && q + 2 <= |line|
    ensures line[q..q + 2] != SEPARATOR
  {
    assert !Text.OccursAt(line, SEPARATOR, q);
  }

  /** Where the first separator is: right after `line`, when `line` cannot hide an earlier one. */
  lemma FindAfterLine(line: string, rest: string)
    requires !Text.Contains(line, SEPARATOR) && (line == [] || line[|line| - 1] != '\n')
    ensures Text.Find(line + SEPARATOR + rest, SEPARATOR) == Some(|line|)
  {
    var b := line + SEPARATOR + rest;
    assert b[|line|..|line| + 2] == SEPARATOR;
    assert Text.OccursAt(b, SEPARATOR, |line|);
    forall q: nat | q < |line| ensures !Text.OccursAt(b, SEPARATOR, q) {
      if q + 2 <= |line| {
        assert b[q..q + 2] == line[q..q + 2];
        NoSeparatorAt(line, q);
      } else {
        assert b[q] == line[q];
      }
    }
    Text.FindIs(b, SEPARATOR, |line|);
  }

  /**
   * The buffer is cut at the first "\n\n": the text before it is one frame and the text
   * after it stays buffered. A "[DONE]" frame stops the handling of the buffer and
   * changes nothing else; a frame without the "data: " prefix is skipped.
   */
  lemma FrameCut(st: RoundState, line: string, rest: string, decode: Decoder)
    requires !Text.Contains(line, SEPARATOR) && (line == [] || line[|line| - 1] != '\n')
    ensures IsDoneFrame(line) ==>
      Drain(st.(buffer := line + SEPARATOR + rest), decode) == st.(buffer := rest)
    ensures !IsDoneFrame(line) ==>
      Drain(st.(buffer := line + SEPARATOR + rest), decode)
        == Drain(ApplyFrame(st.(buffer := rest), line, decode), decode)
    ensures Text.StripPrefix(line, DATA_PREFIX).None? ==>
      Drain(st.(buffer := line + SEPARATOR + rest), decode) == Drain(st.(buffer := rest), decode)
  {
    var b := line + SEPARATOR + rest;
    FindAfterLine(line, rest);
    assert b[..|line|] == line;
    assert b[|line| + 2..] == rest;
  }

  /** The content one frame contributes: its first choice's content delta, or nothing. */
  function FrameContent(line: string, decode: Decoder): string {
    match Text.StripPrefix(line, DATA_PREFIX)
    case None => ""
    case Some(data) =>
      match decode(data)
      case None => ""
      case Some(chunk) => if |chunk.choices| > 0 then chunk.choices[0].delta.content.GetOr("") else ""
  }

  /** The content of the complete frames in `buffer`, in order, up to a "[DONE]" frame. */
  function BufferedContent(buffer: string, decode: Decoder): string
    decreases |buffer|
  {
    match Text.Find(buffer, SEPARATOR)
    case None => ""
    case Some(pos) =>
      if IsDoneFrame(buffer[..pos]) then ""
      else FrameContent(buffer[..pos], decode) + BufferedContent(buffer[pos + 2..], decode)
  }

  /** Frame handling appends the frame's content (an empty delta appends nothing). */
  lemma FrameAppendsContent(st: RoundState, line: string, decode: Decoder)
    ensures ApplyFrame(st, line, decode).collectedContent == st.collectedContent + FrameContent(line, decode)
  {
    assert st.collectedContent + "" == st.collectedContent;
  }

  /** The content collected from a buffer is the frames' content deltas in arrival order. */
  lemma {:induction false} ContentInArrivalOrder(st: RoundState, decode: Decoder)
    ensures Drain(st, decode).collectedContent == st.collectedContent + BufferedContent(st.buffer, decode)
    decreases |st.buffer|
  {
    var found := Text.Find(st.buffer, SEPARATOR);
    if found.None? {
      assert Drain(st, decode) == st;
      assert BufferedContent(st.buffer, decode) == "";
      assert st.collectedContent + "" == st.collectedContent;
    } else {
      var pos := found.value;
      var line := st.buffer[..pos];
      var cut := st.(buffer := st.buffer[pos + 2..]);
      if IsDoneFrame(line) {
        assert Drain(st, decode) == cut;
        assert BufferedContent(st.buffer, decode) == "";
        assert st.collectedContent + "" == st.collectedContent;
      } else {
        var s1 := ApplyFrame(cut, line, decode);
        assert Drain(st, decode) == Drain(s1, decode);
        assert BufferedContent(st.buffer, decode)
          == FrameContent(line, decode) + BufferedContent(st.buffer[pos + 2..], decode);
        FrameAppendsContent(cut, line, decode);
        ContentInArrivalOrder(s1, decode);
        var a, b, c := st.collectedContent, FrameContent(line, decode), BufferedContent(st.buffer[pos + 2..], decode);
        assert s1.buffer == st.buffer[pos + 2..];
        assert s1.collectedContent == a + b;
        assert (a + b) + c == a + (b + c) by {
          assert forall k :: 0 <= k < |a| + |b| + |c| ==> ((a + b) + c)[k] == (a + (b + c))[k];
        }
        assert Drain(s1, decode).collectedContent == (a + b) + c;
      }
    }
  }

  /** The full response of the session grows by exactly the content collected in the round. */
  predicate FullTracksCollected(st: RoundState, earlier: string) {
    st.fullResponse == earlier + st.collectedContent
  }

  /** Content appended to both strings keeps the full response in step with the collected content. */
  lemma ChoiceTracksFull(st: RoundState, choice: Choice, earlier: string)
    requires FullTracksCollected(st, earlier)
    ensures FullTracksCollected(ApplyChoice(st, choice), earlier)
  {
    var content := choice.delta.content.GetOr("");
    if content != [] {
      assert (earlier + st.collectedContent) + content == earlier + (st.collectedContent + content);
    }
  }

  lemma FrameTracksFull(st: RoundState, line: string, decode: Decoder, earlier: string)
    requires FullTracksCollected(st, earlier)
    ensures FullTracksCollected(ApplyFrame(st, line, decode), earlier)
  {
    match Text.StripPrefix(line, DATA_PREFIX)
    case None =>
    case Some(data) =>
      match decode(data)
      case None =>
      case Some(chunk) =>
        if |chunk.choices| > 0 {
          ChoiceTracksFull(st, chunk.choices[0], earlier);
        }
  }

  lemma {:induction false} DrainTracksFull(st: RoundState, decode: Decoder, earlier: string)
    requires FullTracksCollected(st, earlier)
    ensures FullTracksCollected(Drain(st, decode), earlier)
    decreases |st.buffer|
  {
    match Text.Find(st.buffer, SEPARATOR)
    case None =>
    case Some(pos) =>
      var line := st.buffer[..pos];
      var cut := st.(buffer := st.buffer[pos + 2..]);
      if !IsDoneFrame(line) {
        FrameTracksFull(cut, line, decode, earlier);
        DrainTracksFull(ApplyFrame(cut, line, decode), decode, earlier);
        DrainStep(st, pos, decode);
      }
  }

  lemma {:induction false} RoundTracksFull(st: RoundState, chunks: seq<ChunkResult>, decode: Decoder, earlier: string)
    requires FullTracksCollected(st, earlier)
    ensures FullTracksCollected(RunRound(st, chunks, decode).0, earlier)
    decreases |chunks|
  {
    if chunks != [] && chunks[0].Received? {
      var next := st.(buffer := st.buffer + chunks[0].text);
      DrainTracksFull(next, decode, earlier);
      RoundTracksFull(Drain(next, decode), chunks[1..], decode, earlier);
    }
  }

  /** A round ends with the session's response extended by exactly what it collected. */
  lemma RoundExtendsFullResponse(chunks: seq<ChunkResult>, decode: Decoder, earlier: string)
    ensures RunRound(Fresh(earlier), chunks, decode).0.fullResponse
      == earlier + RunRound(Fresh(earlier), chunks, decode).0.collectedContent
  {
    assert earlier + "" == earlier;
    RoundTracksFull(Fresh(earlier), chunks, decode, earlier);
  }

  /** Accumulated tool calls are never without the `has_tool_calls` flag. */
  predicate CallsFlagged(st: RoundState) {
    st.calls != map[] ==> st.hasToolCalls
  }

  lemma {:induction false} DrainKeepsFlag(st: RoundState, decode: Decoder)
    requires CallsFlagged(st)
    ensures CallsFlagged(Drain(st, decode))
    decreases |st.buffer|
  {
    match Text.Find(st.buffer, SEPARATOR)
    case None =>
    case Some(pos) =>
      var line := st.buffer[..pos];
      var cut := st.(buffer := st.buffer[pos + 2..]);
      if !IsDoneFrame(line) {
        FrameKeepsFlag(cut, line, decode);
        DrainKeepsFlag(ApplyFrame(cut, line, decode), decode);
        DrainStep(st, pos, decode);
      }
  }

  /** Tool calls are only ever merged in together with setting the flag. */
  lemma FrameKeepsFlag(st: RoundState, line: string, decode: Decoder)
    requires CallsFlagged(st)
    ensures CallsFlagged(ApplyFrame(st, line, decode))
  {
    match Text.StripPrefix(line, DATA_PREFIX)
    case None =>
    case Some(data) =>
      match decode(data)
      case None =>
      case Some(chunk) =>
        if |chunk.choices| > 0 {
          var choice := chunk.choices[0];
          var st2 := AddReasoning(AddContent(st, choice.delta.content.GetOr("")), choice.delta.reasoningContent.GetOr(""));
          assert st2.calls == st.calls && st2.hasToolCalls == st.hasToolCalls;
        }
  }

  lemma {:induction false} RoundKeepsFlag(st: RoundState, chunks: seq<ChunkResult>, decode: Decoder)
    requires CallsFlagged(st)
    ensures CallsFlagged(RunRound(st, chunks, decode).0)
    decreases |chunks|
  {
    if chunks != [] && chunks[0].Received? {
      var next := st.(buffer := st.buffer + chunks[0].text);
      DrainKeepsFlag(next, decode);
      RoundKeepsFlag(Drain(next, decode), chunks[1..], decode);
    }
  }

  /** The condition under which the handler runs the tools and asks the model again. */
  predicate RunsTools(st: RoundState) {
    st.isToolCallFinish && st.hasToolCalls && st.calls != map[]
  }

  /**
   * The tool loop goes on exactly when a "tool_calls" finish reason was seen and at
   * least one tool call was accumulated; the `has_tool_calls` test adds nothing.
   */
  lemma ToolLoopCondition(chunks: seq<ChunkResult>, decode: Decoder, earlier: string)
    ensures var st := RunRound(Fresh(earlier), chunks, decode).0;
      RunsTools(st) <==> st.isToolCallFinish && st.calls != map[]
  {
    RoundKeepsFlag(Fresh(earlier), chunks, decode);
  }

  /** The content of the assistant message sent back with the tool calls. */
  function AssistantContent(st: RoundState): (content: Option<string>)
    ensures content.None? <==> st.collectedContent == []
    ensures content.Some? ==> content.value == st.collectedContent
  {
    if st.collectedContent == [] then None else Some(st.collectedContent)
  }

  // ---------------------------------------------------------------------------
  // Where the network splits the text does not matter, up to "[DONE]"
  // ---------------------------------------------------------------------------

  const DONE_FRAME: string := "data: [DONE]"

  /** A pattern in a suffix is a pattern in the whole. */
  lemma ContainsInSuffix(s: string, k: nat, pat: string)
    requires k <= |s| && Text.Contains(s[k..], pat)
    ensures Text.Contains(s, pat)
  {
    var i: nat :| i <= |s[k..]| && Text.OccursAt(s[k..], pat, i);
    assert s[k + i..k + i + |pat|] == s[k..][i..i + |pat|];
    assert Text.OccursAt(s, pat, k + i);
  }

  /** Appending text does not move a separator that is already there. */
  lemma FindInPrefix(x: string, b: string, pos: nat)
    requires Text.Find(x, SEPARATOR) == Some(pos)
    ensures Text.Find(x + b, SEPARATOR) == Some(pos)
  {
    var xb := x + b;
    Text.FindFirst(x, SEPARATOR);
    assert xb[pos..pos + 2] == x[pos..pos + 2];
    assert Text.OccursAt(xb, SEPARATOR, pos);
    forall q: nat | q < pos ensures !Text.OccursAt(xb, SEPARATOR, q) {
      assert xb[q..q + 2] == x[q..q + 2];
      assert !Text.OccursAt(x, SEPARATOR, q);
    }
    Text.FindIs(xb, SEPARATOR, pos);
  }

  /** Frame handling does not look at the buffer. */
  lemma FrameIgnoresBuffer(st: RoundState, line: string, decode: Decoder, buffer: string)
    ensures ApplyFrame(st.(buffer := buffer), line, decode) == ApplyFrame(st, line, decode).(buffer := buffer)
  {
    match Text.StripPrefix(line, DATA_PREFIX)
    case None =>
    case Some(data) =>
      match decode(data)
      case None =>
      case Some(chunk) =>
        if |chunk.choices| > 0 {
          ChoiceIgnoresBuffer(st, chunk.choices[0], buffer);
        }
  }

  /**
   * Draining, then appending more text and draining again, ends where appending first
   * and draining once does, as long as the drained text holds no "[DONE]" frame.
   */
  lemma {:induction false} DrainThenAppend(st: RoundState, more: string, decode: Decoder)
    requires !Text.Contains(st.buffer, DONE_FRAME)
    ensures var d := Drain(st, decode);
      Drain(d.(buffer := d.buffer + more), decode) == Drain(st.(buffer := st.buffer + more), decode)
    decreases |st.buffer|
  {
    match Text.Find(st.buffer, SEPARATOR)
    case None =>
    case Some(pos) =>
      var line, rest := st.buffer[..pos], st.buffer[pos + 2..];
      if IsDoneFrame(line) {
        assert line == DONE_FRAME;
        assert Text.OccursAt(st.buffer, DONE_FRAME, 0);
        assert false;
      } else {
        var s1 := ApplyFrame(st.(buffer := rest), line, decode);
        if Text.Contains(rest, DONE_FRAME) {
          ContainsInSuffix(st.buffer, pos + 2, DONE_FRAME);
        }
        var joined := st.buffer + more;
        FindInPrefix(st.buffer, more, pos);
        assert joined[..pos] == line && joined[pos + 2..] == rest + more;
        var d := Drain(st, decode);
        calc {
          Drain(d.(buffer := d.buffer + more), decode);
          { DrainStep(st, pos, decode); }
          Drain(Drain(s1, decode).(buffer := Drain(s1, decode).buffer + more), decode);
          { DrainThenAppend(s1, more, decode); }
          Drain(s1.(buffer := s1.buffer + more), decode);
          { FrameIgnoresBuffer(st.(buffer := rest), line, decode, rest + more); }
          Drain(ApplyFrame(st.(buffer := rest + more), line, decode), decode);
          { DrainStep(st.(buffer := joined), pos, decode); }
          Drain(st.(buffer := joined), decode);
        }
      }
  }

  /** One turn of the inner loop: a frame that is not "[DONE]" is applied and draining goes on. */
  lemma DrainStep(st: RoundState, pos: nat, decode: Decoder)
    requires Text.Find(st.buffer, SEPARATOR) == Some(pos)
    requires !IsDoneFrame(st.buffer[..pos])
    ensures Drain(st, decode) ==
      Drain(ApplyFrame(st.(buffer := st.buffer[pos + 2..]), st.buffer[..pos], decode), decode)
  {
  }


  /**
   * Text received in two chunks is handled as if it had arrived in one, when the first
   * chunk completes no "[DONE]" frame: frames split across chunks are reassembled.
   */
  lemma ChunkBoundaryIrrelevant(st: RoundState, a: string, b: string, later: seq<ChunkResult>, decode: Decoder)
    requires !Text.Contains(st.buffer + a, DONE_FRAME)
    ensures RunRound(st, [Received(a), Received(b)] + later, decode)
      == RunRound(st, [Received(a + b)] + later, decode)
  {
    var two := [Received(a), Received(b)] + later;
    var one := [Received(a + b)] + later;
    assert two[0] == Received(a) && two[1..][0] == Received(b) && two[1..][1..] == later;
    assert one[0] == Received(a + b) && one[1..] == later;
    var s := st.(buffer := st.buffer + a);
    DrainThenAppend(s, b, decode);
    assert st.buffer + a + b == st.buffer + (a + b);
  }

  /** The "[DONE]" frame holds no separator and does not end in a newline. */
  lemma DoneFrameShape()
    ensures IsDoneFrame(DONE_FRAME)
    ensures !Text.Contains(DONE_FRAME, SEPARATOR) && DONE_FRAME[|DONE_FRAME| - 1] != '\n'
  {
    assert DONE_FRAME == DATA_PREFIX + DONE_PAYLOAD;
    forall i: nat | i <= |DONE_FRAME| ensures !Text.OccursAt(DONE_FRAME, SEPARATOR, i) {
      if i + 2 <= |DONE_FRAME| {
        assert DONE_FRAME[i] != '\n';
      }
    }
  }

  /** The content of a buffer that starts with a complete frame. */
  lemma BufferedContentStep(frame: string, rest: string, decode: Decoder)
    requires !Text.Contains(frame, SEPARATOR) && (frame == [] || frame[|frame| - 1] != '\n')
    requires !IsDoneFrame(frame)
    ensures BufferedContent(frame + SEPARATOR + rest, decode) == FrameContent(frame, decode) + BufferedContent(rest, decode)
  {
    FindAfterLine(frame, rest);
    var b := frame + SEPARATOR + rest;
    assert b[..|frame|] == frame && b[|frame| + 2..] == rest;
  }

  /**
   * After "[DONE]" the split does matter: a frame that follows it in the same chunk
   * waits for the next chunk, so its content is dropped when the text arrives as one
   * chunk but applied when the stream delivers one more chunk, even an empty one.
   */
  lemma DoneHoldsBackRest(frame: string, decode: Decoder)
    requires !Text.Contains(frame, SEPARATOR) && frame != [] && frame[|frame| - 1] != '\n'
    requires !IsDoneFrame(frame)
    ensures var text := DONE_FRAME + SEPARATOR + frame + SEPARATOR;
      && RunRound(Fresh(""), [Received(text)], decode).0.collectedContent == ""
      && RunRound(Fresh(""), [Received(text), Received("")], decode).0.collectedContent == FrameContent(frame, decode)
  {
    var text := DONE_FRAME + SEPARATOR + frame + SEPARATOR;
    var rest := frame + SEPARATOR;
    DoneFrameShape();
    assert "" + text == DONE_FRAME + SEPARATOR + rest;
    FrameCut(Fresh(""), DONE_FRAME, rest, decode);
    var held := Fresh("").(buffer := rest);
    assert Drain(Fresh("").(buffer := "" + text), decode) == held;
    var one := [Received(text)];
    assert one[0] == Received(text) && one[1..] == [];
    var two := [Received(text), Received("")];
    assert two[0] == Received(text) && two[1..] == [Received("")] && two[1..][1..] == [];
    assert RunRound(Fresh(""), two, decode) == RunRound(held, [Received("")], decode);
    assert rest + "" == rest;
    ContentInArrivalOrder(held, decode);
    BufferedContentStep(frame, [], decode);
    assert frame + SEPARATOR + [] == rest;
    assert Text.Find([], SEPARATOR).None?;
    assert FrameContent(frame, decode) + "" == FrameContent(frame, decode);
  }
}
