/** responsesStreamEncoder (internal/stream_convert.go:31-499), updated in place as the
    source does. Every method is tied to the operation of ResponsesEncoderSpec it
    performs; the writer it writes to is the sequence `frames`. */
module ResponsesEncoder {
  import opened Canonical
  import opened ResponsesFrames
  import opened ResponsesEncoderSpec
  import ResponsesGrammar

  class ResponsesStreamEncoder {
    const id: string
    const created: int
    const model: string
    var sequence: int
    var nextIndex: int
    var text: string
    var textIndex: int
    var textOpen: bool
    var textRefusal: bool
    var reasoning: string
    var reasoningSig: string
    var reasoningIndex: int
    var reasoningOpen: bool
    var tools: map<int, EncoderTool>
    var output: map<int, Item>
    var usage: Usage
    var finished: bool
    var frames: seq<Frame>

    function View(): Encoder
      reads this
    {
      Encoder(id, created, model, sequence, nextIndex, text, textIndex, textOpen, textRefusal, reasoning, reasoningSig,
              reasoningIndex, reasoningOpen, tools, output, usage, finished, frames)
    }

    constructor (id: string, created: int, model: string)
      ensures View() == Init(id, created, model)
      ensures ResponsesGrammar.Live(View())
    {
      this.id, this.created, this.model := id, created, model;
      sequence, nextIndex := 0, 0;
      text, textIndex, textOpen, textRefusal := "", -1, false, false;
      reasoning, reasoningSig, reasoningIndex, reasoningOpen := "", "", -1, false;
      tools, output, usage, finished, frames := map[], map[], NO_USAGE, false, [];
      new;
      Write(Body.Created(Response(id, created, model, "in_progress", None, [], NO_USAGE)));
      ResponsesGrammar.InitLive(id, created, model);
    }

    method Write(body: Body)
      modifies this`frames, this`sequence
      ensures View() == Emit(old(View()), body)
    {
      frames := frames + [Frame(sequence, body)];
      sequence := sequence + 1;
    }

    method ReserveOutputIndex() returns (index: int)
      modifies this`nextIndex
      ensures index == old(nextIndex) && nextIndex == old(nextIndex) + 1
    {
      index := nextIndex;
      nextIndex := nextIndex + 1;
    }

    method OpenText(refusal: bool)
      modifies this
      ensures View() == EnsureText(old(View()), refusal)
    {
      if textOpen {
        return;
      }
      CloseOpenReasoning();
      BeginText(refusal);
    }

    method BeginText(refusal: bool)
      requires !textOpen && !reasoningOpen
      modifies this
      ensures View() == EnsureText(old(View()), refusal)
    {
      hide Emit, EnsureText;
      ghost var s := View();
      EnsureTextOpens(s, refusal);
      textIndex := ReserveOutputIndex();
      textOpen, textRefusal := true, refusal;
      assert View() == s.(textIndex := s.nextIndex, nextIndex := s.nextIndex + 1, textOpen := true, textRefusal := refusal);
      Write(ItemAdded(textIndex, MessageItem(id + "_msg", "in_progress", [])));
      Write(ContentPartAdded(id + "_msg", textIndex, if refusal then Refusal("") else OutputText("")));
    }

    method OpenReasoning()
      modifies this
      ensures View() == EnsureReasoning(old(View()))
    {
      hide Emit;
      if reasoningOpen {
        return;
      }
      reasoningIndex := ReserveOutputIndex();
      reasoningOpen := true;
      Write(ItemAdded(reasoningIndex, ReasoningItem(id + "_reasoning", "in_progress", [], "")));
      Write(SummaryPartAdded(id + "_reasoning", reasoningIndex, SummaryText("")));
    }

    method CloseOpenReasoning()
      modifies this
      ensures View() == CloseReasoning(old(View()))
    {
      if !reasoningOpen {
        return;
      }
      var part := SummaryText(reasoning);
      Write(SummaryTextDone(id + "_reasoning", reasoningIndex, reasoning));
      Write(SummaryPartDone(id + "_reasoning", reasoningIndex, part));
      var item := ReasoningItem(id + "_reasoning", "completed", [part], reasoningSig);
      output := output[reasoningIndex := item];
      Write(ItemDone(reasoningIndex, item));
      reasoningOpen := false;
    }

    method AddReasoning(delta: string, signature: string)
      modifies this
      ensures View() == WriteReasoningDelta(old(View()), delta, signature)
    {
      if delta == "" && signature == "" {
        return;
      }
      OpenReasoning();
      if delta != "" {
        reasoning := reasoning + delta;
        Write(SummaryTextDelta(id + "_reasoning", reasoningIndex, delta));
      }
      if signature != "" {
        reasoningSig := reasoningSig + signature;
      }
    }

    method AddText(delta: string, refusal: bool)
      modifies this
      ensures View() == WriteTextDelta(old(View()), delta, refusal)
    {
      if delta == "" {
        return;
      }
      OpenText(refusal);
      text := text + delta;
      if textRefusal {
        Write(RefusalTextDelta(id + "_msg", textIndex, delta));
      } else {
        Write(OutputTextDelta(id + "_msg", textIndex, delta));
      }
    }

    method StartTool(index: int, callID: string, name: string, signature: string)
      modifies this
      ensures View() == WriteToolStart(old(View()), index, callID, name, signature)
    {
      if index in tools {
        var tool := tools[index];
        if tool.id == "" {
          tool := tool.(id := callID);
        }
        if tool.name == "" {
          tool := tool.(name := name);
        }
        if tool.signature == "" {
          tool := tool.(signature := signature);
        }
        tools := tools[index := tool];
        return;
      }
      CloseOpenReasoning();
      var j := ReserveOutputIndex();
      var itemID := ToolItemID(id, index);
      tools := tools[index := EncoderTool(callID, name, "", signature, itemID, j, false)];
      Write(ItemAdded(j, CallItem(itemID, "in_progress", callID, name, "")));
    }

    method AddArguments(index: int, callID: string, name: string, delta: string)
      modifies this
      ensures View() == WriteToolDelta(old(View()), index, callID, name, delta)
    {
      if index !in tools {
        StartTool(index, callID, name, "");
      }
      var tool := tools[index];
      if tool.done || delta == "" {
        return;
      }
      tools := tools[index := tool.(arguments := tool.arguments + delta)];
      Write(ArgumentsDelta(tool.itemID, tool.outputIndex, delta));
    }

    method FinishTool(index: int, callID: string, name: string, arguments: string, signature: string)
      modifies this
      ensures View() == WriteToolDone(old(View()), index, callID, name, arguments, signature)
    {
      hide WriteToolStart, Emit;
      if index !in tools {
        StartTool(index, callID, name, signature);
      }
      assert View() == EnsureTool(old(View()), index, callID, name, signature);
      CompleteTool(index, callID, name, arguments, signature);
    }

    method CompleteTool(index: int, callID: string, name: string, arguments: string, signature: string)
      requires index in tools
      modifies this
      ensures View() == WriteToolDone(old(View()), index, callID, name, arguments, signature)
    {
      hide Emit, EnsureTool;
      assert EnsureTool(View(), index, callID, name, signature) == View() by { ToolThere(View(), index, callID, name, signature); }
      var tool := tools[index];
      if tool.done {
        return;
      }
      tool := CompletedTool(tool, callID, name, arguments, signature);
      tools := tools[index := tool];
      WriteTool(tool);
    }

    /** The fields a Done fills in. */
    method CompletedTool(given: EncoderTool, callID: string, name: string, arguments: string, signature: string)
      returns (tool: EncoderTool)
      ensures tool == given.(id := FirstNonEmpty(given.id, callID), name := FirstNonEmpty(given.name, name),
                             arguments := FirstNonEmpty(arguments, given.arguments),
                             signature := FirstNonEmpty(signature, given.signature), done := true)
    {
      tool := given;
      if tool.id == "" {
        tool := tool.(id := callID);
      }
      if tool.name == "" {
        tool := tool.(name := name);
      }
      if arguments != "" {
        tool := tool.(arguments := arguments);
      }
      if signature != "" {
        tool := tool.(signature := signature);
      }
      tool := tool.(done := true);
    }

    /** The frames that end a call, and its item. */
    method WriteTool(tool: EncoderTool)
      modifies this
      ensures var s := old(View());
              var item := CallItem(tool.itemID, "completed", tool.id, tool.name, tool.arguments);
              var argued := Emit(s, ArgumentsDone(tool.itemID, tool.outputIndex, tool.name, tool.arguments));
              View() == Emit(argued.(output := s.output[tool.outputIndex := item]), ItemDone(tool.outputIndex, item))
    {
      Write(ArgumentsDone(tool.itemID, tool.outputIndex, tool.name, tool.arguments));
      var item := CallItem(tool.itemID, "completed", tool.id, tool.name, tool.arguments);
      output := output[tool.outputIndex := item];
      Write(ItemDone(tool.outputIndex, item));
    }

    /** The text block of finish. */
    method FinishText(status: string)
      modifies this
      ensures View() == CloseText(old(View()), status)
    {
      if !textOpen {
        return;
      }
      var part := if textRefusal then Refusal(text) else OutputText(text);
      if textRefusal {
        Write(RefusalTextDone(id + "_msg", textIndex, text));
      } else {
        Write(OutputTextDone(id + "_msg", textIndex, text));
      }
      Write(ContentPartDone(id + "_msg", textIndex, part));
      var item := MessageItem(id + "_msg", status, [part]);
      output := output[textIndex := item];
      Write(ItemDone(textIndex, item));
    }

    method SortedToolIndexes() returns (indexes: seq<int>)
      ensures indexes == SortedKeys(tools.Keys)
    {
      indexes := [];
      var rest := tools.Keys;
      while rest != {}
        invariant rest <= tools.Keys && Ascending(indexes)
        invariant forall i :: i in indexes <==> i in tools.Keys && i !in rest
        invariant forall k | 0 <= k < |indexes| :: forall i | i in rest :: indexes[k] < i
        decreases |rest|
      {
        var least := Least(rest);
        assert least in rest && least !in indexes;
        ghost var before := indexes;
        indexes := indexes + [least];
        rest := rest - {least};
        forall i ensures i in indexes <==> i in tools.Keys && i !in rest {
          assert i in indexes <==> i in before || i == least;
        }
      }
      AscendingUnique(indexes, SortedKeys(tools.Keys));
    }

    method SortOutput() returns (items: seq<Item>)
      ensures items == SortedOutput(output, nextIndex)
    {
      items := [];
      var index := 0;
      while index < nextIndex
        invariant 0 <= index && (index <= nextIndex || index == 0)
        invariant items == SortedOutput(output, index)
      {
        if index in output {
          items := items + [output[index]];
        }
        index := index + 1;
      }
    }

    /** The loop of finish over the calls still open, in index order. */
    method FinishTools()
      modifies this
      ensures View() == CloseTools(old(View()), SortedKeys(old(tools.Keys)))
    {
      hide WriteToolDone, SortedKeys;
      var indexes := SortedToolIndexes();
      ghost var said := View();
      var k := 0;
      while k < |indexes|
        invariant 0 <= k <= |indexes|
        invariant View() == CloseTools(said, indexes[..k])
      {
        assert indexes[..k + 1][..k] == indexes[..k];
        var index := indexes[k];
        if index in tools && !tools[index].done {
          var tool := tools[index];
          FinishTool(index, tool.id, tool.name, tool.arguments, tool.signature);
        }
        k := k + 1;
      }
      assert indexes[..|indexes|] == indexes;
    }

    /** The terminal frame. */
    method WriteTerminal(status: string, reason: string)
      modifies this
      ensures var old' := old(View());
              var resp := TerminalResponse(old', status, reason);
              View() == Emit(old'.(finished := true), if status == "incomplete" then Incomplete(resp) else Completed(resp))
    {
      var items := SortOutput();
      var response := Response(id, created, model, status,
                               if status == "incomplete"
                               then Some(if reason == "content_filter" then "content_filter" else "max_output_tokens") else None,
                               items, usage);
      finished := true;
      Write(if status == "incomplete" then Incomplete(response) else Completed(response));
    }

    /** Whatever is still open is closed: the reasoning, the text, then the tools. */
    method CloseItems(status: string)
      modifies this
      ensures View() == CloseAll(old(View()), status, SortedKeys(old(tools.Keys)))
    {
      hide CloseReasoning, CloseText, CloseTools, SortedKeys;
      SpeechClosed(View(), status);
      CloseOpenReasoning();
      FinishText(status);
      FinishTools();
    }

    method Finish(status: string, reason: string, total: Usage)
      modifies this
      ensures View() == ResponsesEncoderSpec.Finish(old(View()), status, reason, total, SortedKeys(old(tools.Keys)))
    {
      hide CloseAll, TerminalResponse, SortedKeys, ResponseStatus, Emit;
      if finished {
        return;
      }
      if !total.IsZero() {
        usage := total;
      }
      var status' := ResponseStatus(status, reason, if textRefusal then text else "");
      CloseItems(status');
      WriteTerminal(status', reason);
    }

    method Fail(error: Option<ErrorData>)
      modifies this
      ensures View() == Abort(old(View()), error)
    {
      if error.Some? {
        Write(ErrorFrame(error.value.code, error.value.message));
      }
      finished := true;
    }

    /** writeEvent: one step of the encoder. Whatever it was given before, its frames are
        a disciplined stream afterwards. */
    method WriteEvent(e: Event)
      requires !finished ==> ResponsesGrammar.Live(View())
      requires ResponsesGrammar.Disciplined(frames)
      modifies this
      ensures View() == Step(old(View()), e)
      ensures !finished ==> ResponsesGrammar.Live(View())
      ensures ResponsesGrammar.Disciplined(frames)
    {
      hide ResponsesGrammar.Live, ResponsesGrammar.Disciplined, ResponsesEncoderSpec.Finish, WriteTextDelta,
           WriteReasoningDelta, WriteToolStart, WriteToolDelta, WriteToolDone, Abort;
      if finished {
        return;
      }
      ResponsesGrammar.StepDisciplined(View(), e);
      match e {
        case TextDelta(_, delta) => AddText(delta, false);
        case RefusalDelta(_, delta) => AddText(delta, true);
        case ReasoningDelta(_, delta, signature) => AddReasoning(delta, signature);
        case ToolStart(index, callID, name, signature) => StartTool(index, callID, name, signature);
        case ToolDelta(index, callID, name, delta) => AddArguments(index, callID, name, delta);
        case ToolDone(index, callID, name, arguments, signature) => FinishTool(index, callID, name, arguments, signature);
        case UsageReport(total) => usage := total;
        case ResponseDone(status, reason) => Finish(status, reason, usage);
        case StreamError(error) => Fail(error);
        case ResponseStart(_, _, _) =>
        case MessageStart(_, _) =>
      }
    }
  }

  lemma ToolThere(s: Encoder, index: int, callID: string, name: string, signature: string)
    requires index in s.tools
    ensures EnsureTool(s, index, callID, name, signature) == s
  {}

  lemma SpeechClosed(s: Encoder, status: string)
    ensures CloseText(CloseReasoning(s), status).tools == s.tools
  {}

  method AnyMember<T>(s: set<T>) returns (x: T)
    requires s != {}
    ensures x in s
  {
    x :| x in s;
  }

  method Least(s: set<int>) returns (least: int)
    requires s != {}
    ensures least in s && forall i | i in s :: least <= i
  {
    least := AnyMember(s);
    var rest := s - {least};
    while rest != {}
      invariant rest <= s && least in s
      invariant forall i | i in s :: i in rest || least <= i
      decreases |rest|
    {
      var i := AnyMember(rest);
      if i < least {
        least := i;
      }
      rest := rest - {i};
    }
  }

  lemma {:induction false} AscendingUnique(a: seq<int>, b: seq<int>)
    requires Ascending(a) && Ascending(b)
    requires (forall i | i in a :: i in b) && (forall i | i in b :: i in a)
    ensures a == b
  {
    assert a != [] ==> b != [] by {
      if a != [] {
        assert a[0] in a;
      }
    }
    assert b != [] ==> a != [] by {
      if b != [] {
        assert b[0] in b;
      }
    }
    if a != [] {
      var n, m := |a| - 1, |b| - 1;
      assert a[n] in a && a[n] in b;
      assert b[m] in b && b[m] in a;
      var x, y := a[n], b[m];
      assert x == y;
      var a', b' := a[..n], b[..m];
      forall i | i in a' ensures i in b' {
        assert i in a && i != x;
      }
      forall i | i in b' ensures i in a' {
        assert i in b && i != y;
      }
      AscendingUnique(a', b');
    }
  }
}
