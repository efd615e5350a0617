/** responsesStreamEncoder as a function of the events it is given
    (internal/stream_convert.go:31-499): the state after each operation, with the
    frames written so far. The class that updates this state in place is
    ResponsesEncoder.ResponsesStreamEncoder. */
module ResponsesEncoderSpec {
  import opened Canonical
  import opened ResponsesFrames

  datatype EncoderTool = EncoderTool(id: string, name: string, arguments: string, signature: string,
                                     itemID: string, outputIndex: int, done: bool)

  datatype Encoder = Encoder(
    id: string, created: int, model: string,
    sequence: int, nextIndex: int,
    text: string, textIndex: int, textOpen: bool, textRefusal: bool,
    reasoning: string, reasoningSig: string, reasoningIndex: int, reasoningOpen: bool,
    tools: map<int, EncoderTool>, output: map<int, Item>,
    usage: Usage, finished: bool, frames: seq<Frame>)

  function ToolItemID(id: string, index: int): string {
    id + "_fc_" + FormatInt(index)
  }

  // ----- Operations, in the order of the source -----

  function Init(id: string, created: int, model: string): Encoder {
    Emit(Encoder(id, created, model, 0, 0, "", -1, false, false, "", "", -1, false, map[], map[], NO_USAGE, false, []),
         Created(Response(id, created, model, "in_progress", None, [], NO_USAGE)))
  }

  function Emit(s: Encoder, body: Body): Encoder {
    s.(frames := s.frames + [Frame(s.sequence, body)], sequence := s.sequence + 1)
  }

  function EnsureText(s: Encoder, refusal: bool): Encoder {
    if s.textOpen then s else
      var closed := CloseReasoning(s);
      var opened' := closed.(textIndex := closed.nextIndex, nextIndex := closed.nextIndex + 1,
                             textOpen := true, textRefusal := refusal);
      var added := Emit(opened', ItemAdded(opened'.textIndex, MessageItem(s.id + "_msg", "in_progress", [])));
      Emit(added, ContentPartAdded(s.id + "_msg", opened'.textIndex, if refusal then Refusal("") else OutputText("")))
  }

  lemma EnsureTextOpens(s: Encoder, refusal: bool)
    requires !s.textOpen && !s.reasoningOpen
    ensures var begun := s.(textIndex := s.nextIndex, nextIndex := s.nextIndex + 1, textOpen := true, textRefusal := refusal);
            EnsureText(s, refusal) ==
            Emit(Emit(begun, ItemAdded(begun.textIndex, MessageItem(s.id + "_msg", "in_progress", []))),
                 ContentPartAdded(s.id + "_msg", begun.textIndex, if refusal then Refusal("") else OutputText("")))
  {
    hide Emit;
  }

  function EnsureReasoning(s: Encoder): Encoder {
    if s.reasoningOpen then s else
      var opened' := s.(reasoningIndex := s.nextIndex, nextIndex := s.nextIndex + 1, reasoningOpen := true);
      var added := Emit(opened', ItemAdded(s.nextIndex, ReasoningItem(s.id + "_reasoning", "in_progress", [], "")));
      Emit(added, SummaryPartAdded(s.id + "_reasoning", s.nextIndex, SummaryText("")))
  }

  function WriteReasoningDelta(s: Encoder, delta: string, signature: string): Encoder {
    if delta == "" && signature == "" then s else
      var ready := EnsureReasoning(s);
      var said := if delta == "" then ready else
                  Emit(ready.(reasoning := ready.reasoning + delta),
                       SummaryTextDelta(s.id + "_reasoning", ready.reasoningIndex, delta));
      if signature == "" then said else said.(reasoningSig := said.reasoningSig + signature)
  }

  function CloseReasoning(s: Encoder): Encoder {
    if !s.reasoningOpen then s else
      var itemID := s.id + "_reasoning";
      var part := SummaryText(s.reasoning);
      var item := ReasoningItem(itemID, "completed", [part], s.reasoningSig);
      var said := Emit(s, SummaryTextDone(itemID, s.reasoningIndex, s.reasoning));
      var parted := Emit(said, SummaryPartDone(itemID, s.reasoningIndex, part));
      Emit(parted.(output := s.output[s.reasoningIndex := item]), ItemDone(s.reasoningIndex, item)).(reasoningOpen := false)
  }

  function WriteTextDelta(s: Encoder, delta: string, refusal: bool): Encoder {
    if delta == "" then s else
      var ready := EnsureText(s, refusal);
      Emit(ready.(text := ready.text + delta),
           if ready.textRefusal then RefusalTextDelta(s.id + "_msg", ready.textIndex, delta)
           else OutputTextDelta(s.id + "_msg", ready.textIndex, delta))
  }

  function WriteToolStart(s: Encoder, index: int, callID: string, name: string, signature: string): Encoder {
    if index in s.tools then
      var tool := s.tools[index];
      s.(tools := s.tools[index := tool.(id := FirstNonEmpty(tool.id, callID),
                                         name := FirstNonEmpty(tool.name, name),
                                         signature := FirstNonEmpty(tool.signature, signature))])
    else
      var closed := CloseReasoning(s);
      var tool := EncoderTool(callID, name, "", signature, ToolItemID(s.id, index), closed.nextIndex, false);
      Emit(closed.(nextIndex := closed.nextIndex + 1, tools := closed.tools[index := tool]),
           ItemAdded(tool.outputIndex, CallItem(tool.itemID, "in_progress", callID, name, "")))
  }

  /** The start a delta or a done causes when the index is new. */
  function EnsureTool(s: Encoder, index: int, callID: string, name: string, signature: string): (s': Encoder)
    ensures index in s'.tools
  {
    if index in s.tools then s else WriteToolStart(s, index, callID, name, signature)
  }

  function WriteToolDelta(s: Encoder, index: int, callID: string, name: string, delta: string): Encoder {
    var ready := EnsureTool(s, index, callID, name, "");
    var tool := ready.tools[index];
    if tool.done || delta == "" then ready else
      Emit(ready.(tools := ready.tools[index := tool.(arguments := tool.arguments + delta)]),
           ArgumentsDelta(tool.itemID, tool.outputIndex, delta))
  }

  function WriteToolDone(s: Encoder, index: int, callID: string, name: string, arguments: string, signature: string)
    : (s': Encoder)
    ensures index in s'.tools
  {
    var ready := EnsureTool(s, index, callID, name, signature);
    var tool := ready.tools[index];
    if tool.done then ready else
      var tool' := tool.(id := FirstNonEmpty(tool.id, callID), name := FirstNonEmpty(tool.name, name),
                         arguments := FirstNonEmpty(arguments, tool.arguments),
                         signature := FirstNonEmpty(signature, tool.signature), done := true);
      var item := CallItem(tool'.itemID, "completed", tool'.id, tool'.name, tool'.arguments);
      var argued := Emit(ready.(tools := ready.tools[index := tool']),
                         ArgumentsDone(tool'.itemID, tool'.outputIndex, tool'.name, tool'.arguments));
      Emit(argued.(output := ready.output[tool'.outputIndex := item]), ItemDone(tool'.outputIndex, item))
  }

  function ResponseStatus(status: string, reason: string, refusal: string): string {
    if status == "incomplete" then "incomplete"
    else if status == "completed" || (status == "" && refusal != "") then "completed"
    else if reason == "length" || reason == "content_filter" then "incomplete"
    else "completed"
  }

  /** The text block of finish: nothing when no text was opened. */
  function CloseText(s: Encoder, status: string): Encoder {
    if !s.textOpen then s else
      var itemID := s.id + "_msg";
      var part := if s.textRefusal then Refusal(s.text) else OutputText(s.text);
      var item := MessageItem(itemID, status, [part]);
      var said := Emit(s, if s.textRefusal then RefusalTextDone(itemID, s.textIndex, s.text)
                          else OutputTextDone(itemID, s.textIndex, s.text));
      var parted := Emit(said, ContentPartDone(itemID, s.textIndex, part));
      Emit(parted.(output := s.output[s.textIndex := item]), ItemDone(s.textIndex, item))
  }

  function CloseTool(s: Encoder, index: int): Encoder {
    if index !in s.tools || s.tools[index].done then s else
      var tool := s.tools[index];
      WriteToolDone(s, index, tool.id, tool.name, tool.arguments, tool.signature)
  }

  function CloseTools(s: Encoder, indexes: seq<int>): Encoder {
    if indexes == [] then s else
      CloseTool(CloseTools(s, indexes[..|indexes| - 1]), indexes[|indexes| - 1])
  }

  predicate Ascending(s: seq<int>) {
    forall k, l | 0 <= k < l < |s| :: s[k] < s[l]
  }

  function SortedOutput(output: map<int, Item>, n: int): seq<Item> {
    if n <= 0 then [] else
      SortedOutput(output, n - 1) + if n - 1 in output then [output[n - 1]] else []
  }

  function TerminalResponse(s: Encoder, status: string, reason: string): Response {
    Response(s.id, s.created, s.model, status,
             if status == "incomplete" then Some(if reason == "content_filter" then "content_filter" else "max_output_tokens")
             else None,
             SortedOutput(s.output, s.nextIndex), s.usage)
  }

  /** The items still open when a stream finishes, closed in the source's order. */
  function CloseAll(s: Encoder, status: string, indexes: seq<int>): Encoder {
    CloseTools(CloseText(CloseReasoning(s), status), indexes)
  }

  /** finish; `indexes` are the tool indices in ascending order. */
  function Finish(s: Encoder, status: string, reason: string, usage: Usage, indexes: seq<int>): Encoder {
    if s.finished then s else
      var counted := s.(usage := if usage.IsZero() then s.usage else usage);
      var status' := ResponseStatus(status, reason, if s.textRefusal then s.text else "");
      var closed := CloseAll(counted, status', indexes);
      var resp := TerminalResponse(closed, status', reason);
      Emit(closed.(finished := true), if status' == "incomplete" then Incomplete(resp) else Completed(resp))
  }

  /** The keys of the tool map in ascending order (sort.Ints). */
  ghost function SortedKeys(keys: set<int>): (s: seq<int>)
    ensures Ascending(s) && forall i :: i in s <==> i in keys
  {
    if |keys| == 0 then [] else
      var greatest := Greatest(keys);
      SortedKeys(keys - {greatest}) + [greatest]
  }

  lemma HasMember<T>(s: set<T>)
    requires |s| != 0
    ensures exists x :: x in s
  {}

  ghost function AnyOf<T>(s: set<T>): (x: T)
    requires |s| != 0
    ensures x in s
  {
    HasMember(s);
    var x :| x in s;
    x
  }

  ghost function Greatest(keys: set<int>): (g: int)
    requires |keys| != 0
    ensures g in keys && forall i | i in keys :: i <= g
  {
    var x := AnyOf(keys);
    var others := keys - {x};
    assert keys == others + {x};
    if |others| == 0 then x else
      var rest := Greatest(others);
      if rest < x then x else rest
  }

  ghost function Step(s: Encoder, e: Event): Encoder {
    if s.finished then s else
      match e
      case TextDelta(_, delta) => WriteTextDelta(s, delta, false)
      case RefusalDelta(_, delta) => WriteTextDelta(s, delta, true)
      case ReasoningDelta(_, delta, signature) => WriteReasoningDelta(s, delta, signature)
      case ToolStart(index, callID, name, signature) => WriteToolStart(s, index, callID, name, signature)
      case ToolDelta(index, callID, name, delta) => WriteToolDelta(s, index, callID, name, delta)
      case ToolDone(index, callID, name, arguments, signature) =>
        WriteToolDone(s, index, callID, name, arguments, signature)
      case UsageReport(usage) => s.(usage := usage)
      case ResponseDone(status, reason) => Finish(s, status, reason, s.usage, SortedKeys(s.tools.Keys))
      case StreamError(error) => Abort(s, error)
      case ResponseStart(_, _, _) => s
      case MessageStart(_, _) => s
  }

  function Abort(s: Encoder, error: Option<ErrorData>): Encoder {
    var told := match error
      case None => s
      case Some(data) => Emit(s, ErrorFrame(data.code, data.message));
    told.(finished := true)
  }

  /** The encoder after a whole stream of events. */
  ghost function Encode(id: string, created: int, model: string, events: seq<Event>): Encoder {
    if events == [] then Init(id, created, model)
    else Step(Encode(id, created, model, events[..|events| - 1]), events[|events| - 1])
  }

  lemma EncodeSnoc(id: string, created: int, model: string, events: seq<Event>, e: Event)
    ensures Encode(id, created, model, events + [e]) == Step(Encode(id, created, model, events), e)
  {
    assert (events + [e])[..|events|] == events;
  }
}
