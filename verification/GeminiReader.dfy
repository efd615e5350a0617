/** readGeminiStreamAsCanonical (internal/stream_convert.go:935-1013) and the chunk mapping
    under it (internal/protocol/gemini_response.go:33-122). */
module GeminiReader {
  import opened Canonical

  datatype FunctionCall = FunctionCall(id: string, name: string, args: string)

  datatype Part = Part(text: string, thought: bool, signature: string, call: Option<FunctionCall>) {
    /** The parts that become tool calls. */
    predicate Calls() { call.Some? && !IsBlank(call.value.name) }

    predicate Speaks() { call.None? && (text != "" || signature != "") }
  }

  datatype Candidate = Candidate(parts: seq<Part>, finishReason: string)

  datatype Block = Block(reason: string, message: string)

  datatype Chunk = Chunk(candidates: seq<Candidate>, block: Option<Block>, usage: Usage) {
    predicate Blocks() { candidates == [] && block.Some? && !IsBlank(block.value.reason) }
  }

  datatype Line = DoneLine | ErrorLine(status: string, code: int, message: string) | Malformed | ChunkLine(chunk: Chunk)

  // ----- GeminiToCanonicalStreamEvents -----

  function FinishReason(reason: string): string {
    match reason
    case "" => "stop"
    case "STOP" => "stop"
    case "MAX_TOKENS" => "length"
    case "SAFETY" => "content_filter"
    case "RECITATION" => "content_filter"
    case "BLOCKLIST" => "content_filter"
    case "PROHIBITED_CONTENT" => "content_filter"
    case "SPII" => "content_filter"
    case _ => ToLower(reason)
  }

  /** The id a call is given: its own, or one made of the request and its index. */
  function CallID(call: FunctionCall, requestID: string, index: int): string {
    if IsBlank(call.id) then "call_" + requestID + "_" + FormatInt(index) else Trim(call.id)
  }

  function Arguments(call: FunctionCall): string {
    if IsBlank(call.args) || call.args == "null" then "{}" else call.args
  }

  function PartEvents(part: Part, requestID: string, index: int): seq<Event> {
    if part.Speaks() then
      [if part.thought then ReasoningDelta(0, part.text, part.signature) else TextDelta(0, part.text)]
    else if part.Calls() then
      var call := part.call.value;
      var id := CallID(call, requestID, index);
      [ToolStart(index, id, call.name, part.signature),
       ToolDelta(index, id, call.name, Arguments(call)),
       ToolDone(index, id, call.name, Arguments(call), part.signature)]
    else []
  }

  function CallsOf(parts: seq<Part>): seq<FunctionCall> {
    if parts == [] then [] else
      var last := parts[|parts| - 1];
      CallsOf(parts[..|parts| - 1]) + if last.Calls() then [last.call.value] else []
  }

  function PartsEvents(parts: seq<Part>, requestID: string, offset: int): seq<Event> {
    if parts == [] then [] else
      var before := parts[..|parts| - 1];
      PartsEvents(before, requestID, offset) + PartEvents(parts[|parts| - 1], requestID, offset + |CallsOf(before)|)
  }

  function PartsOf(chunk: Chunk): seq<Part> {
    if chunk.candidates == [] then [] else chunk.candidates[0].parts
  }

  function BlockMessage(block: Block): string {
    if IsBlank(block.message) then "Gemini blocked the prompt: " + block.reason else block.message
  }

  /** The finish of a chunk, if it tells one. */
  function EndOf(chunk: Chunk): Option<string> {
    if chunk.Blocks() then Some("content_filter")
    else if chunk.candidates != [] && chunk.candidates[0].finishReason != "" then
      var reason := FinishReason(chunk.candidates[0].finishReason);
      Some(if CallsOf(PartsOf(chunk)) != [] && reason == "stop" then "tool_calls" else reason)
    else None
  }

  function BodyEvents(chunk: Chunk, requestID: string, offset: int): seq<Event> {
    PartsEvents(PartsOf(chunk), requestID, offset) +
    if chunk.Blocks() then [RefusalDelta(0, BlockMessage(chunk.block.value))] else []
  }

  /** What a chunk says: its content, then its usage, then its finish. */
  function ChunkEvents(chunk: Chunk, requestID: string, offset: int): seq<Event> {
    BodyEvents(chunk, requestID, offset) +
    (if chunk.usage.IsZero() then [] else [UsageReport(chunk.usage)]) +
    (if EndOf(chunk).Some? then [ResponseDone("", EndOf(chunk).value)] else [])
  }

  predicate NoEnd(events: seq<Event>) {
    forall e <- events :: !e.ResponseDone?
  }

  lemma {:induction false} PartsEventsGoOn(parts: seq<Part>, requestID: string, offset: int)
    ensures NoEnd(PartsEvents(parts, requestID, offset))
  {
    if parts != [] {
      PartsEventsGoOn(parts[..|parts| - 1], requestID, offset);
    }
  }

  method MapParts(parts: seq<Part>, requestID: string, toolOffset: int) returns (out: seq<Event>, toolIndex: int)
    ensures out == PartsEvents(parts, requestID, toolOffset) && toolIndex == |CallsOf(parts)|
  {
    hide CallID, Arguments, IsBlank;
    out, toolIndex := [], 0;
    for k := 0 to |parts|
      invariant out == PartsEvents(parts[..k], requestID, toolOffset)
      invariant toolIndex == |CallsOf(parts[..k])|
    {
      assert parts[..k + 1][..k] == parts[..k];
      var part := parts[k];
      ghost var before, index := out, toolOffset + toolIndex;
      if part.call.None? && (part.text != "" || part.signature != "") {
        out := out + [if part.thought then ReasoningDelta(0, part.text, part.signature) else TextDelta(0, part.text)];
      }
      if part.call.Some? && !IsBlank(part.call.value.name) {
        out := MapCall(out, part, requestID, toolOffset + toolIndex);
        toolIndex := toolIndex + 1;
      }
      assert out == before + PartEvents(part, requestID, index) by { SilentPart(part, requestID, index, before); }
    }
    assert parts[..|parts|] == parts;
  }

  lemma SilentPart(part: Part, requestID: string, index: int, before: seq<Event>)
    ensures !part.Speaks() && !part.Calls() ==> before == before + PartEvents(part, requestID, index)
  {}

  method MapCall(out: seq<Event>, part: Part, requestID: string, index: int) returns (out': seq<Event>)
    requires part.Calls()
    ensures out' == out + PartEvents(part, requestID, index)
  {
    var call := part.call.value;
    var callID := Trim(call.id);
    TrimShape(call.id);
    if callID == "" {
      callID := "call_" + requestID + "_" + FormatInt(index);
    }
    var arguments := call.args;
    if IsBlank(arguments) || arguments == "null" {
      arguments := "{}";
    }
    out' := out + [ToolStart(index, callID, call.name, part.signature),
                   ToolDelta(index, callID, call.name, arguments),
                   ToolDone(index, callID, call.name, arguments, part.signature)];
  }

  /** The usage goes before the first finish, or at the end. */
  method InsertUsage(out: seq<Event>, usage: Usage, ghost body: seq<Event>, ghost end: seq<Event>) returns (out': seq<Event>)
    requires out == body + end && NoEnd(body) && (end == [] || (|end| == 1 && end[0].ResponseDone?))
    ensures out' == body + [UsageReport(usage)] + end
  {
    for i := 0 to |out|
      invariant i <= |body|
    {
      if out[i].ResponseDone? {
        assert i == |body|;
        return out[..i] + [UsageReport(usage)] + out[i..];
      }
    }
    out' := out + [UsageReport(usage)];
  }

  method MapChunk(chunk: Chunk, requestID: string, toolOffset: int) returns (out: seq<Event>)
    ensures out == ChunkEvents(chunk, requestID, toolOffset)
  {
    hide FinishReason, PartsEvents, CallsOf, BlockMessage;
    out := [];
    ghost var body := BodyEvents(chunk, requestID, toolOffset);
    PartsEventsGoOn(PartsOf(chunk), requestID, toolOffset);
    if |chunk.candidates| > 0 {
      var candidate := chunk.candidates[0];
      var toolIndex;
      out, toolIndex := MapParts(candidate.parts, requestID, toolOffset);
      assert out == body;
      if candidate.finishReason != "" {
        var finishReason := FinishReason(candidate.finishReason);
        if toolIndex > 0 && finishReason == "stop" {
          finishReason := "tool_calls";
        }
        out := out + [ResponseDone("", finishReason)];
      }
    } else {
      NoParts(requestID, toolOffset);
      if chunk.block.Some? && !IsBlank(chunk.block.value.reason) {
        out := [RefusalDelta(0, BlockMessage(chunk.block.value)), ResponseDone("", "content_filter")];
      }
    }
    ghost var end := if EndOf(chunk).Some? then [ResponseDone("", EndOf(chunk).value)] else [];
    assert out == body + end;
    if !chunk.usage.IsZero() {
      out := InsertUsage(out, chunk.usage, body, end);
    }
  }

  lemma NoParts(requestID: string, offset: int)
    ensures PartsEvents([], requestID, offset) == [] && CallsOf([]) == []
  {}

  // ----- The reader -----

  datatype Status = Running | Stopped | StreamFailed | Aborted

  datatype Reader = Reader(usage: Usage, toolOffset: nat, terminated: bool, status: Status, events: seq<Event>)

  function Begin(requestID: string): Reader {
    Reader(NO_USAGE, 0, false, Running, [ResponseStart(requestID, 0, ""), MessageStart(0, "assistant")])
  }

  function Say(r: Reader, e: Event): Reader {
    r.(events := r.events + [e])
  }

  /** One event of a chunk. */
  function ReadEvent(r: Reader, e: Event): Reader {
    match e
    case UsageReport(usage) => Say(r.(usage := usage), e)
    case ToolDone(_, _, _, _, _) => Say(r.(toolOffset := r.toolOffset + 1), e)
    case ResponseDone(status, reason) =>
      Say(r.(terminated := true), ResponseDone(status, if r.toolOffset > 0 && reason == "stop" then "tool_calls" else reason))
    case _ => Say(r, e)
  }

  function ReadEvents(r: Reader, events: seq<Event>): Reader {
    if events == [] then r else ReadEvent(ReadEvents(r, events[..|events| - 1]), events[|events| - 1])
  }

  function ReadLine(requestID: string, r: Reader, line: Line): Reader {
    if r.status != Running then r else
      match line
      case DoneLine => r.(terminated := true, status := Stopped)
      case ErrorLine(status, code, message) =>
        var name := if status == "" then FormatInt(code) else status;
        Say(r, StreamError(Some(ErrorData(name, message)))).(terminated := true, status := StreamFailed)
      case Malformed => r.(status := Aborted)
      case ChunkLine(chunk) => ReadEvents(r, ChunkEvents(chunk, requestID, r.toolOffset))
  }

  function Read(requestID: string, lines: seq<Line>): Reader {
    if lines == [] then Begin(requestID) else
      ReadLine(requestID, Read(requestID, lines[..|lines| - 1]), lines[|lines| - 1])
  }

  /** Whether the reader reports success, given whether the input ended in an error. */
  predicate Succeeds(r: Reader, scanError: bool) {
    (r.status == Running || r.status == Stopped) && !scanError && r.terminated
  }

  lemma ReadSnoc(requestID: string, lines: seq<Line>, line: Line)
    ensures Read(requestID, lines + [line]) == ReadLine(requestID, Read(requestID, lines), line)
  {
    assert (lines + [line])[..|lines|] == lines;
  }

  lemma {:induction false} ReadStops(requestID: string, lines: seq<Line>, rest: seq<Line>)
    requires Read(requestID, lines).status != Running
    ensures Read(requestID, lines + rest) == Read(requestID, lines)
  {
    if rest == [] {
      assert lines + rest == lines;
    } else {
      ReadStops(requestID, lines, rest[..|rest| - 1]);
      assert lines + rest == lines + rest[..|rest| - 1] + [rest[|rest| - 1]];
      ReadSnoc(requestID, lines + rest[..|rest| - 1], rest[|rest| - 1]);
    }
  }

  lemma ReadAt(requestID: string, lines: seq<Line>, k: nat)
    requires k < |lines|
    ensures var r := ReadLine(requestID, Read(requestID, lines[..k]), lines[k]);
            Read(requestID, lines[..k + 1]) == r && (r.status != Running ==> Read(requestID, lines) == r)
  {
    hide Read, ReadLine;
    assert lines[..k + 1] == lines[..k] + [lines[k]];
    ReadSnoc(requestID, lines[..k], lines[k]);
    if Read(requestID, lines[..k + 1]).status != Running {
      assert lines == lines[..k + 1] + lines[k + 1..];
      ReadStops(requestID, lines[..k + 1], lines[k + 1..]);
    }
  }

  lemma {:induction false} ReadEventsKeepStatus(r: Reader, events: seq<Event>)
    ensures ReadEvents(r, events).status == r.status
  {
    if events != [] {
      ReadEventsKeepStatus(r, events[..|events| - 1]);
    }
  }

  /** The inner loop of the reader, over the events of one chunk. */
  method ReadChunk(chunk: Chunk, requestID: string, usage: Usage, toolOffset: nat, terminated: bool, events: seq<Event>, ghost r: Reader)
    returns (usage': Usage, toolOffset': nat, terminated': bool, events': seq<Event>)
    requires r == Reader(usage, toolOffset, terminated, Running, events)
    ensures ReadEvents(r, ChunkEvents(chunk, requestID, toolOffset)) == Reader(usage', toolOffset', terminated', Running, events')
  {
    hide ChunkEvents;
    usage', toolOffset', terminated', events' := usage, toolOffset, terminated, events;
    var out := MapChunk(chunk, requestID, toolOffset);
    for k := 0 to |out|
      invariant ReadEvents(r, out[..k]) == Reader(usage', toolOffset', terminated', Running, events')
    {
      assert out[..k + 1][..k] == out[..k];
      var event := out[k];
      if event.UsageReport? {
        usage' := event.usage;
      }
      if event.ToolDone? {
        toolOffset' := toolOffset' + 1;
      }
      if event.ResponseDone? && toolOffset' > 0 && event.finishReason == "stop" {
        event := event.(finishReason := "tool_calls");
      }
      if event.ResponseDone? {
        terminated' := true;
      }
      events' := events' + [event];
    }
    assert out[..|out|] == out;
  }

  method ReadStream(requestID: string, lines: seq<Line>, scanError: bool) returns (events: seq<Event>, usage: Usage, ok: bool)
    ensures var r := Read(requestID, lines); events == r.events && usage == r.usage && (ok <==> Succeeds(r, scanError))
  {
    hide ReadEvents, ChunkEvents;
    usage := NO_USAGE;
    var toolOffset, terminated, status := 0, false, Running;
    events := [ResponseStart(requestID, 0, ""), MessageStart(0, "assistant")];
    var k := 0;
    while k < |lines| && status == Running
      invariant 0 <= k <= |lines| && toolOffset >= 0 && status != Aborted
      invariant Reader(usage, toolOffset, terminated, status, events) ==
                if status == Running then Read(requestID, lines[..k]) else Read(requestID, lines)
      decreases |lines| - k
    {
      ReadAt(requestID, lines, k);
      match lines[k] {
        case DoneLine =>
          terminated, status := true, Stopped;
        case ErrorLine(name, code, message) =>
          var shown := if name == "" then FormatInt(code) else name;
          events := events + [StreamError(Some(ErrorData(shown, message)))];
          terminated, status := true, StreamFailed;
        case Malformed => return events, usage, false;
        case ChunkLine(chunk) =>
          ghost var r := Read(requestID, lines[..k]);
          ReadEventsKeepStatus(r, ChunkEvents(chunk, requestID, toolOffset));
          usage, toolOffset, terminated, events := ReadChunk(chunk, requestID, usage, toolOffset, terminated, events, r);
      }
      k := k + 1;
    }
    assert lines[..|lines|] == lines;
    ok := !scanError && status != StreamFailed && terminated;
  }
}
