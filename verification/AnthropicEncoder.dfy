/** anthropicStreamEncoder (internal/stream_convert.go:501-768), updated in place. Every
    method is tied to the operation of AnthropicEncoderSpec it performs; the writer is the
    sequence `frames`. */
module AnthropicEncoder {
  import opened Canonical
  import opened AnthropicFrames
  import opened AnthropicEncoderSpec

  class AnthropicStreamEncoder {
    var nextIndex: int
    var textIndex: int
    var textOpen: bool
    var reasoningIndex: int
    var reasoningOpen: bool
    var signature: string
    var refusal: string
    var tools: map<int, PendingTool>
    var usage: Usage
    var finished: bool
    var frames: seq<Frame>

    function View(): Encoder
      reads this
    {
      Encoder(nextIndex, textIndex, textOpen, reasoningIndex, reasoningOpen, signature, refusal, tools, usage, finished, frames)
    }

    constructor (id: string, model: string)
      ensures View() == Init(id, model)
      ensures Live(View())
    {
      nextIndex, textIndex, textOpen, reasoningIndex, reasoningOpen := 0, 0, false, 0, false;
      signature, refusal, tools, usage, finished := "", "", map[], NO_USAGE, false;
      frames := [MessageStarted(id, model, "assistant", NO_TOKENS)];
      new;
      RunLive(id, model, []);
    }

    method Write(f: Frame)
      modifies this`frames
      ensures View() == Emit(old(View()), f)
    {
      frames := frames + [f];
    }

    method StopReasoning()
      modifies this
      ensures View() == CloseReasoning(old(View()))
    {
      if !reasoningOpen {
        return;
      }
      if signature != "" {
        Write(BlockDelta(reasoningIndex, SignaturePart(signature)));
      }
      Write(BlockStop(reasoningIndex));
      reasoningOpen := false;
    }

    method StopText()
      modifies this
      ensures View() == CloseText(old(View()))
    {
      if !textOpen {
        return;
      }
      Write(BlockStop(textIndex));
      textOpen := false;
    }

    method StartText()
      modifies this
      ensures View() == EnsureText(old(View()))
    {
      hide CloseReasoning;
      if textOpen {
        return;
      }
      StopReasoning();
      textOpen, textIndex := true, nextIndex;
      nextIndex := nextIndex + 1;
      Write(BlockStart(textIndex, TextBlock));
    }

    method StartReasoning()
      modifies this
      ensures View() == EnsureReasoning(old(View()))
    {
      hide CloseText;
      if reasoningOpen {
        return;
      }
      StopText();
      signature := "";
      reasoningOpen, reasoningIndex := true, nextIndex;
      nextIndex := nextIndex + 1;
      Write(BlockStart(reasoningIndex, ThinkingBlock));
    }

    method AddText(delta: string)
      modifies this
      ensures View() == WriteTextDelta(old(View()), delta)
    {
      hide EnsureText;
      if delta == "" {
        return;
      }
      StartText();
      Write(BlockDelta(textIndex, TextPart(delta)));
    }

    method AddReasoning(delta: string, more: string)
      modifies this
      ensures View() == WriteReasoningDelta(old(View()), delta, more)
    {
      hide EnsureReasoning;
      if delta == "" && more == "" {
        return;
      }
      StartReasoning();
      if delta != "" {
        Write(BlockDelta(reasoningIndex, ThinkingPart(delta)));
      }
      if more != "" {
        signature := signature + more;
      }
    }

    /** The three frames of a tool block. */
    method WriteToolBlock(tool: PendingTool)
      modifies this
      ensures View() == WriteTool(old(View()), tool)
    {
      var index := nextIndex;
      nextIndex := nextIndex + 1;
      Write(BlockStart(index, ToolUseBlock(tool.id, tool.name)));
      Write(BlockDelta(index, JsonPart(tool.arguments)));
      Write(BlockStop(index));
    }

    method FinishTool(index: int, callID: string, name: string, arguments: string)
      modifies this
      ensures View() == WriteToolDone(old(View()), index, callID, name, arguments)
    {
      hide CloseText, CloseReasoning, WriteTool;
      StopsKeepTools(View());
      StopReasoning();
      StopText();
      var tool := if index in tools then tools[index] else PendingTool("", "", "");
      if tool.id == "" {
        tool := tool.(id := callID);
      }
      if tool.name == "" {
        tool := tool.(name := name);
      }
      if arguments != "" {
        tool := tool.(arguments := arguments);
      }
      tools := tools[index := tool];
      WriteToolBlock(tool);
    }

    method FinishMessage(reason: string, total: Usage)
      modifies this
      ensures View() == Finish(old(View()), reason, total)
    {
      hide CloseText, CloseReasoning;
      if finished {
        return;
      }
      finished := true;
      StopsKeepTools(View());
      StopReasoning();
      StopText();
      if !total.IsZero() {
        usage := total;
      }
      var stop := FinishToStop(reason);
      Write(MessageDelta(stop, RefusalDetails(stop, refusal), UsageToTokens(usage)));
      Write(MessageStop);
    }

    method Fail(error: Option<ErrorData>)
      modifies this
      ensures View() == Abort(old(View()), error)
    {
      if error.Some? {
        Write(ErrorFrame(ErrorTypeOf(error.value.code), error.value.message));
      }
      finished := true;
    }

    /** writeEvent: one step of the encoder. A live encoder stays live until a terminal
        event, which leaves a whole message, a failed one, or one cut off where it stood. */
    method WriteEvent(e: Event)
      requires finished || Live(View())
      modifies this
      ensures View() == Step(old(View()), e)
      ensures finished || Live(View())
      ensures !old(finished) && e.ResponseDone? ==> PlaceOf(frames) == Over
      ensures !old(finished) && e.StreamError? && e.error.Some? ==> PlaceOf(frames) == Failed
    {
      hide Live, PlaceOf, WriteTextDelta, WriteReasoningDelta, WriteToolDone, Finish, Abort;
      if finished {
        return;
      }
      StepPlace(View(), e);
      match e {
        case TextDelta(_, delta) => AddText(delta);
        case RefusalDelta(_, delta) => refusal := refusal + delta;
        case ReasoningDelta(_, delta, more) => AddReasoning(delta, more);
        case ToolStart(index, callID, name, _) => tools := tools[index := PendingTool(callID, name, "")];
        case ToolDelta(index, _, _, delta) =>
          var tool := if index in tools then tools[index] else PendingTool("", "", "");
          tools := tools[index := tool.(arguments := tool.arguments + delta)];
        case ToolDone(index, callID, name, arguments, _) => FinishTool(index, callID, name, arguments);
        case UsageReport(total) => usage := total;
        case ResponseDone(_, reason) => FinishMessage(reason, usage);
        case StreamError(error) => Fail(error);
        case ResponseStart(_, _, _) =>
        case MessageStart(_, _) =>
      }
      FinishedByTerminal(old(View()), e);
    }
  }

  lemma StopsKeepTools(s: Encoder)
    ensures var s' := CloseText(CloseReasoning(s));
            s'.tools == s.tools && s'.usage == s.usage && s'.refusal == s.refusal
  {}

  lemma FinishedByTerminal(s: Encoder, e: Event)
    requires !s.finished
    ensures e.IsTerminal() ==> Step(s, e).finished
  {}
}
