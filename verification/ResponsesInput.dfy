/** The input of a Responses request: grouped into messages going in, flattened going out
    (internal/protocol/openai_responses.go:488-684, 965-968; internal/protocol/canonical.go:172-188). */
module ResponsesInput {
  import opened Canonical

  // ----- Items and messages -----

  datatype ContentPart =
    | InputText(text: string)
    | OutputText(text: string)
    | RefusalText(refusal: string)
    | InputImage(mimeType: string, data: string)
    | BadPart

  datatype Content = PlainText(text: string) | PartList(parts: seq<ContentPart>) | BadContent

  /** A summary or content part of a reasoning item; `counts` when it has the type that is read. */
  datatype Thought = Thought(counts: bool, text: string)

  datatype ThoughtContent = NoContent | Thoughts(thoughts: seq<Thought>) | BadThoughts

  datatype Item =
    | MessageItem(role: string, content: Content)
    | CallItem(id: string, callID: string, name: string, arguments: string)
    | OutputItem(callID: string, output: string)
    | ReasoningItem(summary: seq<Thought>, details: ThoughtContent, encrypted: string)
    | OtherItem(kind: string)

  datatype Part =
    | Text(text: string)
    | Image(mimeType: string, data: string)
    | Reasoning(text: string, signature: string)
    | ToolCall(id: string, name: string, arguments: string)
    | ToolResponse(id: string, name: string, response: string)
    | OtherPart(kind: string)

  datatype Message = Message(role: string, parts: seq<Part>)

  // ----- JSON strings -----

  function Hex(n: int): char
    requires 0 <= n < 16
  {
    "0123456789abcdef"[n]
  }

  /** A character inside a string that json.Marshal writes. */
  function Escape(c: char): (s: string)
    ensures s != ""
  {
    if c == '\"' then "\\\"" else if c == '\\' then "\\\\"
    else if c == '\n' then "\\n" else if c == '\r' then "\\r" else if c == '\t' then "\\t"
    else if c == '\U{8}' then "\\b" else if c == '\U{C}' then "\\f"
    else if c < ' ' then "\\u00" + [Hex(c as int / 16 % 16), Hex(c as int % 16)]
    else if c in {'<', '>', '&'} then "\\u00" + [Hex(c as int / 16 % 16), Hex(c as int % 16)]
    else if c == '\U{2028}' then "\\u2028" else if c == '\U{2029}' then "\\u2029"
    else [c]
  }

  function EscapeAll(s: string): (e: string)
    ensures |e| >= |s|
  {
    if s == "" then "" else EscapeAll(s[..|s| - 1]) + Escape(s[|s| - 1])
  }

  /** quoteJSONString. */
  function Quote(s: string): (q: string)
    ensures |q| >= |s| + 2
  {
    "\"" + EscapeAll(s) + "\""
  }

  lemma QuoteIsTrimmed(s: string)
    ensures Trim(Quote(s)) == Quote(s) && !IsBlank(Quote(s))
  {
    var q := Quote(s);
    assert q[0] == '\"' && q[|q| - 1] == '\"' && q[0] in q;
    TrimLeftShape(q);
    TrimRightShape(q);
  }

  // ----- Going in -----

  function PartIn(p: ContentPart): Option<Part> {
    match p
    case InputText(text) => Some(Text(text))
    case OutputText(text) => Some(Text(text))
    case RefusalText(refusal) => Some(Text(refusal))
    case InputImage(mimeType, data) => Some(Image(mimeType, data))
    case BadPart => None
  }

  function PartsIn(parts: seq<ContentPart>): Option<seq<Part>> {
    if parts == [] then Some([]) else
      match PartsIn(parts[..|parts| - 1])
      case None => None
      case Some(before) =>
        var last := PartIn(parts[|parts| - 1]);
        if last.None? then None else Some(before + [last.value])
  }

  /** openAIResponsesContentToCanonical. */
  function ContentIn(content: Content): Option<seq<Part>> {
    match content
    case PlainText(text) => Some([Text(text)])
    case PartList(parts) => PartsIn(parts)
    case BadContent => None
  }

  function ThoughtText(thoughts: seq<Thought>): string {
    if thoughts == [] then "" else
      var last := thoughts[|thoughts| - 1];
      ThoughtText(thoughts[..|thoughts| - 1]) + if last.counts then last.text else ""
  }

  function ReasoningText(item: Item): string
    requires item.ReasoningItem?
  {
    ThoughtText(item.summary) + if item.details.Thoughts? then ThoughtText(item.details.thoughts) else ""
  }

  /** A call of an item: the call id, or the item's own; blank arguments become an empty object. */
  function CallIn(item: Item): (call: Part)
    requires item.CallItem?
    ensures call.ToolCall?
  {
    var id := if !IsBlank(item.callID) then item.callID else if !IsBlank(item.id) then item.id else "";
    ToolCall(id, item.name, if IsBlank(item.arguments) then "{}" else item.arguments)
  }

  /** The state of the loop: messages so far, reasoning that waits for its message, and the message
      further calls go to, or -1. */
  datatype Grouping = Grouping(out: seq<Message>, pending: seq<Part>, callIndex: int) | Refused

  function AppendTo(out: seq<Message>, index: nat, part: Part): seq<Message>
    requires index < |out|
  {
    out[index := out[index].(parts := out[index].parts + [part])]
  }

  function GroupItem(g: Grouping, item: Item): Grouping {
    if g.Refused? then g else
      match item
      case MessageItem(role, content) =>
        (match ContentIn(content)
         case None => Refused
         case Some(parts) =>
           if g.pending != [] && role != "assistant" then Refused
           else Grouping(g.out + [Message(role, g.pending + parts)], [], -1))
      case CallItem(_, _, _, _) =>
        if 0 <= g.callIndex < |g.out| then g.(out := AppendTo(g.out, g.callIndex, CallIn(item)))
        else Grouping(g.out + [Message("assistant", g.pending + [CallIn(item)])], [], |g.out|)
      case OutputItem(callID, output) =>
        if g.pending != [] then Refused
        else Grouping(g.out + [Message("tool", [ToolResponse(callID, "", Quote(output))])], [], -1)
      case ReasoningItem(_, details, encrypted) =>
        if details.BadThoughts? then Refused
        else if ReasoningText(item) == "" && encrypted == "" then g.(callIndex := -1)
        else g.(pending := g.pending + [Reasoning(ReasoningText(item), encrypted)], callIndex := -1)
      case OtherItem(_) => Refused
  }

  function Group(items: seq<Item>): Grouping {
    if items == [] then Grouping([], [], -1) else GroupItem(Group(items[..|items| - 1]), items[|items| - 1])
  }

  lemma {:induction false} RefusedStays(items: seq<Item>, k: nat)
    requires k <= |items| && Group(items[..k]).Refused?
    ensures Group(items).Refused?
    decreases |items|
  {
    if k < |items| {
      assert items[..|items| - 1][..k] == items[..k];
      RefusedStays(items[..|items| - 1], k);
    } else {
      assert items[..k] == items;
    }
  }

  // ----- Names of responses -----

  type Names = map<string, string>

  function NamesAfter(names: Names, part: Part): Names {
    if part.ToolCall? && part.id != "" && part.name != "" then names[part.id := part.name] else names
  }

  function NameIn(names: Names, id: string): string {
    if id in names then names[id] else ""
  }

  function Named(names: Names, part: Part): Part {
    if part.ToolResponse? && part.name == "" then ToolResponse(part.id, NameIn(names, part.id), part.response) else part
  }

  function NamesOfParts(names: Names, parts: seq<Part>): Names {
    if parts == [] then names else NamesAfter(NamesOfParts(names, parts[..|parts| - 1]), parts[|parts| - 1])
  }

  function NamedParts(names: Names, parts: seq<Part>): seq<Part> {
    if parts == [] then [] else
      var before := parts[..|parts| - 1];
      NamedParts(names, before) + [Named(NamesOfParts(names, before), parts[|parts| - 1])]
  }

  function NamesOf(messages: seq<Message>): Names {
    if messages == [] then map[] else NamesOfParts(NamesOf(messages[..|messages| - 1]), messages[|messages| - 1].parts)
  }

  /** populateCanonicalToolResponseNames. */
  function FillNames(messages: seq<Message>): seq<Message> {
    if messages == [] then [] else
      var before, last := messages[..|messages| - 1], messages[|messages| - 1];
      FillNames(before) + [last.(parts := NamedParts(NamesOf(before), last.parts))]
  }

  method PopulateNames(messages: seq<Message>) returns (out: seq<Message>)
    ensures out == FillNames(messages)
  {
    out := [];
    var names: Names := map[];
    for m := 0 to |messages|
      invariant out == FillNames(messages[..m]) && names == NamesOf(messages[..m])
    {
      assert messages[..m + 1][..m] == messages[..m];
      var parts, more := PopulateParts(messages[m].parts, names);
      names := more;
      out := out + [messages[m].(parts := parts)];
    }
    assert messages[..|messages|] == messages;
  }

  /** The inner loop: the parts of one message are written to in place. */
  method PopulateParts(given: seq<Part>, before: Names) returns (parts: seq<Part>, names: Names)
    ensures parts == NamedParts(before, given) && names == NamesOfParts(before, given)
  {
    parts, names := given, before;
    for p := 0 to |given|
      invariant |parts| == |given| && parts[p..] == given[p..]
      invariant parts[..p] == NamedParts(before, given[..p]) && names == NamesOfParts(before, given[..p])
    {
      assert given[..p + 1][..p] == given[..p];
      assert parts[p] == parts[p..][0] == given[p];
      ghost var done := parts[..p];
      var part := parts[p];
      if part.ToolCall? && part.id != "" && part.name != "" {
        names := names[part.id := part.name];
      } else if part.ToolResponse? && part.name == "" {
        parts := parts[p := ToolResponse(part.id, if part.id in names then names[part.id] else "", part.response)];
      }
      assert parts[..p + 1] == done + [parts[p]];
      assert parts[p + 1..] == given[p..][1..];
    }
    assert given[..|given|] == given && parts[..|given|] == parts;
  }

  // ----- The loop -----

  /** One turn of the loop, on the loop's variables. */
  method GroupOne(item: Item, out: seq<Message>, pending: seq<Part>, callIndex: int)
    returns (out': seq<Message>, pending': seq<Part>, callIndex': int, ok: bool)
    requires -1 <= callIndex < |out|
    ensures GroupItem(Grouping(out, pending, callIndex), item) == (if ok then Grouping(out', pending', callIndex') else Refused)
    ensures ok ==> -1 <= callIndex' < |out'|
  {
    out', pending', callIndex', ok := out, pending, callIndex, true;
    match item {
      case MessageItem(role, content) =>
        callIndex' := -1;
        var parts := ContentIn(content);
        if parts.None? {
          return out, pending, callIndex, false;
        }
        var all := parts.value;
        if |pending| > 0 {
          if role != "assistant" {
            return out, pending, callIndex, false;
          }
          all := pending + all;
          pending' := [];
        }
        assert [] + parts.value == parts.value;
        out' := out + [Message(role, all)];
      case CallItem(_, _, _, _) =>
        if callIndex >= 0 {
          out' := AppendTo(out, callIndex, CallIn(item));
          return;
        }
        out' := out + [Message("assistant", pending + [CallIn(item)])];
        pending' := [];
        callIndex' := |out'| - 1;
      case OutputItem(callID, output) =>
        callIndex' := -1;
        if |pending| > 0 {
          return out, pending, callIndex, false;
        }
        out' := out + [Message("tool", [ToolResponse(callID, "", Quote(output))])];
      case ReasoningItem(_, details, encrypted) =>
        callIndex' := -1;
        if details.BadThoughts? {
          return out, pending, callIndex, false;
        }
        var reasoning := ReadReasoning(item);
        if reasoning != "" || encrypted != "" {
          pending' := pending + [Reasoning(reasoning, encrypted)];
        }
      case OtherItem(_) => ok := false;
    }
  }

  method ReadReasoning(item: Item) returns (reasoning: string)
    requires item.ReasoningItem? && !item.details.BadThoughts?
    ensures reasoning == ReasoningText(item)
  {
    reasoning := ReadThoughts(item.summary);
    if item.details.Thoughts? {
      var more := ReadThoughts(item.details.thoughts);
      reasoning := reasoning + more;
    }
  }

  method ReadThoughts(thoughts: seq<Thought>) returns (text: string)
    ensures text == ThoughtText(thoughts)
  {
    text := "";
    for k := 0 to |thoughts|
      invariant text == ThoughtText(thoughts[..k])
    {
      assert thoughts[..k + 1][..k] == thoughts[..k];
      if thoughts[k].counts {
        text := text + thoughts[k].text;
      } else {
        assert text + "" == text;
      }
    }
    assert thoughts[..|thoughts|] == thoughts;
  }

  /** What the input is read as; None stands for its errors. */
  function InputToMessages(items: seq<Item>): Option<seq<Message>> {
    var g := Group(items);
    if g.Refused? || g.pending != [] then None else Some(FillNames(g.out))
  }

  /** openAIResponsesInputToCanonical, on a list of items. */
  method InputToCanonical(items: seq<Item>) returns (messages: Option<seq<Message>>)
    ensures messages == InputToMessages(items)
  {
    hide GroupItem, FillNames;
    var out: seq<Message>, pending: seq<Part>, callIndex := [], [], -1;
    for k := 0 to |items|
      invariant -1 <= callIndex < |out| && Group(items[..k]) == Grouping(out, pending, callIndex)
    {
      assert items[..k + 1][..k] == items[..k];
      var ok;
      out, pending, callIndex, ok := GroupOne(items[k], out, pending, callIndex);
      if !ok {
        RefusedStays(items, k + 1);
        return None;
      }
    }
    assert items[..|items|] == items;
    if |pending| > 0 {
      return None;
    }
    var named := PopulateNames(out);
    messages := Some(named);
  }

  // ----- Going out -----

  /** dataURL's MIME type. */
  function PrintMime(mimeType: string): string {
    if IsBlank(mimeType) then "application/octet-stream" else Trim(mimeType)
  }

  function PartOut(p: Part): ContentPart {
    match p
    case Text(text) => InputText(text)
    case Image(mimeType, data) => InputImage(PrintMime(mimeType), data)
    case _ => BadPart
  }

  function PartsOut(parts: seq<Part>): seq<ContentPart> {
    seq(|parts|, k requires 0 <= k < |parts| => PartOut(parts[k]))
  }

  /** canonicalPartsToOpenAIResponsesContent. */
  function ContentOut(parts: seq<Part>): Content {
    if |parts| == 1 && parts[0].Text? then PlainText(parts[0].text) else PartList(PartsOut(parts))
  }

  function ContentParts(parts: seq<Part>): seq<Part> {
    if parts == [] then [] else
      var last := parts[|parts| - 1];
      ContentParts(parts[..|parts| - 1]) + if last.Text? || last.Image? then [last] else []
  }

  function ReasoningOut(part: Part): Item
    requires part.Reasoning?
  {
    ReasoningItem([Thought(true, part.text)], NoContent, part.signature)
  }

  function Before(parts: seq<Part>): seq<Item> {
    if parts == [] then [] else
      var last := parts[|parts| - 1];
      Before(parts[..|parts| - 1]) + if last.Reasoning? then [ReasoningOut(last)] else []
  }

  function AfterItem(part: Part): seq<Item> {
    match part
    case ToolCall(id, name, arguments) => [CallItem("", id, name, arguments)]
    case ToolResponse(id, _, response) => [OutputItem(id, if IsBlank(response) then "" else Trim(response))]
    case _ => []
  }

  function After(parts: seq<Part>): seq<Item> {
    if parts == [] then [] else After(parts[..|parts| - 1]) + AfterItem(parts[|parts| - 1])
  }

  function ContentItem(role: string, content: seq<Part>): seq<Item> {
    if content == [] then [] else [MessageItem(role, ContentOut(content))]
  }

  predicate Flattens(parts: seq<Part>) {
    forall p <- parts :: !p.OtherPart?
  }

  /** canonicalMessageToOpenAIResponsesInput; None stands for an unsupported part. */
  function FlattenMessage(m: Message): Option<seq<Item>> {
    if !Flattens(m.parts) then None
    else Some(Before(m.parts) + ContentItem(m.role, ContentParts(m.parts)) + After(m.parts))
  }

  method MessageToInput(m: Message) returns (items: Option<seq<Item>>)
    ensures items == FlattenMessage(m)
  {
    hide ContentOut, AfterItem;
    var content: seq<Part>, before: seq<Item>, after: seq<Item> := [], [], [];
    for k := 0 to |m.parts|
      invariant Flattens(m.parts[..k])
      invariant content == ContentParts(m.parts[..k]) && before == Before(m.parts[..k]) && after == After(m.parts[..k])
    {
      assert m.parts[..k + 1][..k] == m.parts[..k];
      assert m.parts[..k + 1] == m.parts[..k] + [m.parts[k]];
      var part := m.parts[k];
      match part {
        case OtherPart(_) => return None;
        case Text(_) => content := content + [part];
        case Image(_, _) => content := content + [part];
        case Reasoning(_, _) => before := before + [ReasoningOut(part)];
        case ToolCall(_, _, _) => after := after + AfterItem(part);
        case ToolResponse(_, _, _) => after := after + AfterItem(part);
      }
      NoAfter(part, after);
    }
    assert m.parts[..|m.parts|] == m.parts;
    assert before + [] == before;
    if |content| > 0 {
      before := before + [MessageItem(m.role, ContentOut(content))];
    }
    items := Some(before + after);
  }

  lemma NoAfter(part: Part, items: seq<Item>)
    ensures !part.ToolCall? && !part.ToolResponse? ==> items + AfterItem(part) == items
  {
    assert items + [] == items;
  }
}
