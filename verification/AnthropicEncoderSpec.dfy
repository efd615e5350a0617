/** anthropicStreamEncoder as a function of the events it is given
    (internal/stream_convert.go:501-768), with the frames written so far, and the
    grammar every run of it keeps. */
module AnthropicEncoderSpec {
  import opened Canonical
  import opened AnthropicFrames

  datatype PendingTool = PendingTool(id: string, name: string, arguments: string)

  datatype Encoder = Encoder(
    nextIndex: int, textIndex: int, textOpen: bool,
    reasoningIndex: int, reasoningOpen: bool, signature: string,
    refusal: string, tools: map<int, PendingTool>, usage: Usage, finished: bool, frames: seq<Frame>)

  const NO_TOKENS := TokenUsage(0, 0, 0, 0, 0)

  function Init(id: string, model: string): Encoder {
    Emit(Encoder(0, 0, false, 0, false, "", "", map[], NO_USAGE, false, []), MessageStarted(id, model, "assistant", NO_TOKENS))
  }

  function Emit(s: Encoder, f: Frame): Encoder {
    s.(frames := s.frames + [f])
  }

  function CloseReasoning(s: Encoder): Encoder {
    if !s.reasoningOpen then s else
      var signed := if s.signature == "" then s else Emit(s, BlockDelta(s.reasoningIndex, SignaturePart(s.signature)));
      Emit(signed, BlockStop(s.reasoningIndex)).(reasoningOpen := false)
  }

  function CloseText(s: Encoder): Encoder {
    if !s.textOpen then s else Emit(s, BlockStop(s.textIndex)).(textOpen := false)
  }

  function EnsureText(s: Encoder): Encoder {
    if s.textOpen then s else
      var closed := CloseReasoning(s);
      Emit(closed.(textOpen := true, textIndex := closed.nextIndex, nextIndex := closed.nextIndex + 1),
           BlockStart(closed.nextIndex, TextBlock))
  }

  function EnsureReasoning(s: Encoder): Encoder {
    if s.reasoningOpen then s else
      var closed := CloseText(s);
      Emit(closed.(signature := "", reasoningOpen := true, reasoningIndex := closed.nextIndex,
                   nextIndex := closed.nextIndex + 1),
           BlockStart(closed.nextIndex, ThinkingBlock))
  }

  function WriteTextDelta(s: Encoder, delta: string): Encoder {
    if delta == "" then s else
      var ready := EnsureText(s);
      Emit(ready, BlockDelta(ready.textIndex, TextPart(delta)))
  }

  function WriteReasoningDelta(s: Encoder, delta: string, signature: string): Encoder {
    if delta == "" && signature == "" then s else
      var ready := EnsureReasoning(s);
      var said := if delta == "" then ready else Emit(ready, BlockDelta(ready.reasoningIndex, ThinkingPart(delta)));
      if signature == "" then said else said.(signature := said.signature + signature)
  }

  function ToolAt(s: Encoder, index: int): PendingTool {
    if index in s.tools then s.tools[index] else PendingTool("", "", "")
  }

  function WriteTool(s: Encoder, tool: PendingTool): Encoder {
    var started := Emit(s.(nextIndex := s.nextIndex + 1), BlockStart(s.nextIndex, ToolUseBlock(tool.id, tool.name)));
    Emit(Emit(started, BlockDelta(s.nextIndex, JsonPart(tool.arguments))), BlockStop(s.nextIndex))
  }

  function WriteToolDone(s: Encoder, index: int, callID: string, name: string, arguments: string): Encoder {
    var quiet := CloseText(CloseReasoning(s));
    var tool := ToolAt(s, index);
    var tool' := PendingTool(FirstNonEmpty(tool.id, callID), FirstNonEmpty(tool.name, name), FirstNonEmpty(arguments, tool.arguments));
    WriteTool(quiet.(tools := quiet.tools[index := tool']), tool')
  }

  function UsageToTokens(u: Usage): TokenUsage {
    TokenUsage(if u.prompt < u.cached then 0 else u.prompt - u.cached, u.completion, 0, u.cached, 0)
  }

  function RefusalDetails(stop: string, refusal: string): Option<StopDetails> {
    if stop == "refusal" then Some(StopDetails(if refusal == "" then "The request was declined" else refusal, "")) else None
  }

  function Finish(s: Encoder, reason: string, usage: Usage): Encoder {
    if s.finished then s else
      var closed := CloseText(CloseReasoning(s.(finished := true)));
      var counted := closed.(usage := if usage.IsZero() then closed.usage else usage);
      var stop := FinishToStop(reason);
      Emit(Emit(counted, MessageDelta(stop, RefusalDetails(stop, s.refusal), UsageToTokens(counted.usage))), MessageStop)
  }

  function Abort(s: Encoder, error: Option<ErrorData>): Encoder {
    var told := match error
      case None => s
      case Some(data) => Emit(s, ErrorFrame(ErrorTypeOf(data.code), data.message));
    told.(finished := true)
  }

  function Step(s: Encoder, e: Event): Encoder {
    if s.finished then s else
      match e
      case TextDelta(_, delta) => WriteTextDelta(s, delta)
      case RefusalDelta(_, delta) => s.(refusal := s.refusal + delta)
      case ReasoningDelta(_, delta, signature) => WriteReasoningDelta(s, delta, signature)
      case ToolStart(index, callID, name, _) => s.(tools := s.tools[index := PendingTool(callID, name, "")])
      case ToolDelta(index, _, _, delta) =>
        var tool := ToolAt(s, index);
        s.(tools := s.tools[index := tool.(arguments := tool.arguments + delta)])
      case ToolDone(index, callID, name, arguments, _) => WriteToolDone(s, index, callID, name, arguments)
      case UsageReport(usage) => s.(usage := usage)
      case ResponseDone(_, reason) => Finish(s, reason, s.usage)
      case StreamError(error) => Abort(s, error)
      case ResponseStart(_, _, _) => s
      case MessageStart(_, _) => s
  }

  function Encode(id: string, model: string, events: seq<Event>): Encoder {
    if events == [] then Init(id, model)
    else Step(Encode(id, model, events[..|events| - 1]), events[|events| - 1])
  }

  lemma EncodeSnoc(id: string, model: string, events: seq<Event>, e: Event)
    ensures Encode(id, model, events + [e]) == Step(Encode(id, model, events), e)
  {
    assert (events + [e])[..|events|] == events;
  }

  // ----- The grammar -----

  /** Where a stream stands: message_start, then blocks 0, 1, 2, ... each started, fed
      deltas of its own kind and stopped before the next, then message_delta, then
      message_stop; an error frame may cut it off anywhere before message_delta. */
  datatype Place =
    | Fresh
    | Between(next: int)
    | Inside(index: int, block: Block)
    | Closing
    | Over
    | Failed
    | Broken

  predicate Fits(delta: BlockPart, block: Block) {
    match delta
    case TextPart(_) => block.TextBlock?
    case ThinkingPart(_) => block.ThinkingBlock?
    case SignaturePart(_) => block.ThinkingBlock?
    case JsonPart(_) => block.ToolUseBlock?
    case OtherPart => false
  }

  function PlaceStep(p: Place, f: Frame): Place {
    match (p, f)
    case (Fresh, MessageStarted(_, _, _, _)) => Between(0)
    case (Between(n), BlockStart(i, block)) => if i == n then Inside(n, block) else Broken
    case (Inside(n, block), BlockDelta(i, delta)) => if i == n && Fits(delta, block) then Inside(n, block) else Broken
    case (Inside(n, block), BlockStop(i)) => if i == n then Between(n + 1) else Broken
    case (Between(n), MessageDelta(_, _, _)) => Closing
    case (Closing, MessageStop) => Over
    case (Between(n), ErrorFrame(_, _)) => Failed
    case (Inside(n, _), ErrorFrame(_, _)) => Failed
    case _ => Broken
  }

  function PlaceOf(frames: seq<Frame>): Place {
    if frames == [] then Fresh else PlaceStep(PlaceOf(frames[..|frames| - 1]), frames[|frames| - 1])
  }

  lemma PlaceEmit(s: Encoder, f: Frame)
    ensures PlaceOf(Emit(s, f).frames) == PlaceStep(PlaceOf(s.frames), f)
  {
    assert Emit(s, f).frames[..|s.frames|] == s.frames;
  }

  /** Of text and reasoning at most one block is open, and it is the last one. */
  ghost predicate Live(s: Encoder) {
    && !s.finished && !(s.textOpen && s.reasoningOpen)
    && PlaceOf(s.frames) == (if s.textOpen then Inside(s.textIndex, TextBlock)
                             else if s.reasoningOpen then Inside(s.reasoningIndex, ThinkingBlock)
                             else Between(s.nextIndex))
    && (s.textOpen ==> s.nextIndex == s.textIndex + 1)
    && (s.reasoningOpen ==> s.nextIndex == s.reasoningIndex + 1)
  }

  lemma CloseReasoningPlace(s: Encoder)
    requires !(s.textOpen && s.reasoningOpen)
    requires s.reasoningOpen ==> PlaceOf(s.frames) == Inside(s.reasoningIndex, ThinkingBlock) && s.nextIndex == s.reasoningIndex + 1
    ensures var s' := CloseReasoning(s);
            && s' == s.(reasoningOpen := false, frames := s'.frames)
            && PlaceOf(s'.frames) == if s.reasoningOpen then Between(s.nextIndex) else PlaceOf(s.frames)
  {
    hide PlaceOf;
    if s.reasoningOpen {
      PlaceEmit(s, BlockDelta(s.reasoningIndex, SignaturePart(s.signature)));
      var signed := if s.signature == "" then s else Emit(s, BlockDelta(s.reasoningIndex, SignaturePart(s.signature)));
      PlaceEmit(signed, BlockStop(s.reasoningIndex));
    }
  }

  /** With both blocks closed the stream stands between blocks. */
  lemma CloseBothPlace(s: Encoder)
    requires !(s.textOpen && s.reasoningOpen)
    requires Live(s.(finished := false))
    ensures var s' := CloseText(CloseReasoning(s));
            && s' == s.(reasoningOpen := false, textOpen := false, frames := s'.frames)
            && PlaceOf(s'.frames) == Between(s.nextIndex)
  {
    hide PlaceOf;
    CloseReasoningPlace(s);
    PlaceEmit(CloseReasoning(s), BlockStop(s.textIndex));
  }

  lemma TextLive(s: Encoder, delta: string)
    requires Live(s)
    ensures Live(WriteTextDelta(s, delta))
  {
    hide PlaceOf, PlaceStep;
    if delta != "" {
      if !s.textOpen {
        CloseReasoningPlace(s);
        var closed := CloseReasoning(s);
        PlaceEmit(closed, BlockStart(closed.nextIndex, TextBlock));
        assert PlaceStep(Between(closed.nextIndex), BlockStart(closed.nextIndex, TextBlock)) == Inside(closed.nextIndex, TextBlock) by {
          StartsBlock(closed.nextIndex, TextBlock);
        }
      }
      var ready := EnsureText(s);
      PlaceEmit(ready, BlockDelta(ready.textIndex, TextPart(delta)));
      FeedsBlock(ready.textIndex, TextBlock, TextPart(delta));
    }
  }

  lemma StartsBlock(n: int, block: Block)
    ensures PlaceStep(Between(n), BlockStart(n, block)) == Inside(n, block)
  {}

  lemma FeedsBlock(n: int, block: Block, delta: BlockPart)
    requires Fits(delta, block)
    ensures PlaceStep(Inside(n, block), BlockDelta(n, delta)) == Inside(n, block)
  {}

  lemma ReasoningLive(s: Encoder, delta: string, signature: string)
    requires Live(s)
    ensures Live(WriteReasoningDelta(s, delta, signature))
  {
    hide PlaceOf;
    if delta != "" || signature != "" {
      if !s.reasoningOpen {
        PlaceEmit(s, BlockStop(s.textIndex));
        var closed := CloseText(s);
        PlaceEmit(closed, BlockStart(closed.nextIndex, ThinkingBlock));
      }
      var ready := EnsureReasoning(s);
      PlaceEmit(ready, BlockDelta(ready.reasoningIndex, ThinkingPart(delta)));
    }
  }

  lemma ToolLive(s: Encoder, index: int, callID: string, name: string, arguments: string)
    requires Live(s)
    ensures Live(WriteToolDone(s, index, callID, name, arguments))
  {
    hide PlaceOf;
    CloseBothPlace(s);
    var quiet := CloseText(CloseReasoning(s));
    var tool := ToolAt(WriteToolDone(s, index, callID, name, arguments), index);
    var n := s.nextIndex;
    var started := Emit(quiet, BlockStart(n, ToolUseBlock(tool.id, tool.name)));
    PlaceEmit(quiet, BlockStart(n, ToolUseBlock(tool.id, tool.name)));
    PlaceEmit(started, BlockDelta(n, JsonPart(tool.arguments)));
    PlaceEmit(Emit(started, BlockDelta(n, JsonPart(tool.arguments))), BlockStop(n));
  }

  lemma FinishPlace(s: Encoder, reason: string, usage: Usage)
    requires Live(s)
    ensures PlaceOf(Finish(s, reason, usage).frames) == Over && Finish(s, reason, usage).finished
  {
    hide PlaceOf;
    var ended := s.(finished := true);
    assert ended.(finished := false) == s;
    CloseBothPlace(ended);
    var closed := CloseText(CloseReasoning(ended));
    var counted := closed.(usage := if usage.IsZero() then closed.usage else usage);
    var stop := FinishToStop(reason);
    var delta := MessageDelta(stop, RefusalDetails(stop, s.refusal), UsageToTokens(counted.usage));
    PlaceEmit(counted, delta);
    PlaceEmit(Emit(counted, delta), MessageStop);
  }

  lemma StepLive(s: Encoder, e: Event)
    requires Live(s) && !e.IsTerminal()
    ensures Live(Step(s, e))
  {
    hide PlaceOf, PlaceStep;
    match e
    case TextDelta(_, delta) => TextLive(s, delta);
    case ReasoningDelta(_, delta, signature) => ReasoningLive(s, delta, signature);
    case ToolDone(index, callID, name, arguments, _) => ToolLive(s, index, callID, name, arguments);
    case _ =>
  }

  lemma AbortPlace(s: Encoder, data: ErrorData)
    requires Live(s)
    ensures PlaceOf(Abort(s, Some(data)).frames) == Failed
  {
    hide PlaceOf;
    PlaceEmit(s, ErrorFrame(ErrorTypeOf(data.code), data.message));
  }

  /** After one event: a terminal event ends the stream, as a whole message, as a failed
      one, or, for an error without data, where it stood. */
  lemma StepPlace(s: Encoder, e: Event)
    requires Live(s)
    ensures var p := PlaceOf(Step(s, e).frames);
            match e
            case ResponseDone(_, _) => p == Over
            case StreamError(Some(_)) => p == Failed
            case StreamError(None) => p == PlaceOf(s.frames)
            case _ => Live(Step(s, e))
  {
    hide PlaceOf, PlaceStep;
    match e
    case ResponseDone(_, reason) => FinishPlace(s, reason, s.usage);
    case StreamError(Some(data)) => AbortPlace(s, data);
    case StreamError(None) =>
    case _ => StepLive(s, e);
  }

  lemma {:induction false} RunLive(id: string, model: string, events: seq<Event>)
    requires NoTerminal(events)
    ensures Live(Encode(id, model, events))
  {
    if events == [] {
      PlaceEmit(Encoder(0, 0, false, 0, false, "", "", map[], NO_USAGE, false, []), MessageStarted(id, model, "assistant", NO_TOKENS));
    } else {
      var before, e := events[..|events| - 1], events[|events| - 1];
      assert e in events && forall x <- before :: x in events;
      RunLive(id, model, before);
      StepLive(Encode(id, model, before), e);
    }
  }

  lemma {:induction false} EncodeStops(id: string, model: string, events: seq<Event>, rest: seq<Event>)
    requires Encode(id, model, events).finished
    ensures Encode(id, model, events + rest) == Encode(id, model, events)
  {
    if rest == [] {
      assert events + rest == events;
    } else {
      EncodeStops(id, model, events, rest[..|rest| - 1]);
      assert events + rest == events + rest[..|rest| - 1] + [rest[|rest| - 1]];
      EncodeSnoc(id, model, events + rest[..|rest| - 1], rest[|rest| - 1]);
    }
  }

  /** Every run keeps the grammar, by its first terminal event, whatever comes after:
      a run that finishes is a whole message, an error with data adds one error frame, and
      any other run is an unfinished message. */
  lemma RunKeepsGrammar(id: string, model: string, body: seq<Event>, end: Event, rest: seq<Event>)
    requires NoTerminal(body) && end.IsTerminal()
    ensures PlaceOf(Encode(id, model, body).frames).Between? || PlaceOf(Encode(id, model, body).frames).Inside?
    ensures PlaceOf(Encode(id, model, body + [end] + rest).frames) ==
            match end
            case ResponseDone(_, _) => Over
            case StreamError(Some(_)) => Failed
            case _ => PlaceOf(Encode(id, model, body).frames)
  {
    hide PlaceOf, PlaceStep;
    RunLive(id, model, body);
    var s := Encode(id, model, body);
    EncodeSnoc(id, model, body, end);
    StepPlace(s, end);
    assert Step(s, end).finished;
    EncodeStops(id, model, body + [end], rest);
  }
}
