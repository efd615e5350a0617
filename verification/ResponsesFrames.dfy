/** The event frames of the OpenAI Responses protocol, one per `data:` line, and the
    mapping of a terminal response to its canonical form
    (internal/protocol/openai_responses.go). */
module ResponsesFrames {
  import opened Canonical

  datatype ItemKind = Reasoning | Message | FunctionCall | OtherItem

  datatype Part =
    | OutputText(text: string)
    | Refusal(refusal: string)
    | SummaryText(text: string)
    | ReasoningText(text: string)
    | OtherPart

  /** OpenAIResponseOutputItem. */
  datatype Item = Item(kind: ItemKind, id: string, status: string, role: string, content: seq<Part>,
                       summary: seq<Part>, encrypted: string, callID: string, name: string, arguments: string)

  /** OpenAIResponsesResponse; a missing usage object reads as zero usage. */
  datatype Response = Response(id: string, created: int, model: string, status: string,
                               incompleteReason: Option<string>, output: seq<Item>, usage: Usage)

  datatype Body =
    | Created(response: Response)
    | ItemAdded(outputIndex: int, item: Item, itemID: string := "")
    | ContentPartAdded(itemID: string, outputIndex: int, part: Part)
    | SummaryPartAdded(itemID: string, outputIndex: int, part: Part)
    | OutputTextDelta(itemID: string, outputIndex: int, delta: string)
    | RefusalTextDelta(itemID: string, outputIndex: int, delta: string)
    | SummaryTextDelta(itemID: string, outputIndex: int, delta: string)
    | ReasoningTextDelta(itemID: string, outputIndex: int, delta: string)
    | ArgumentsDelta(itemID: string, outputIndex: int, delta: string)
    | OutputTextDone(itemID: string, outputIndex: int, text: string)
    | RefusalTextDone(itemID: string, outputIndex: int, text: string)
    | ContentPartDone(itemID: string, outputIndex: int, part: Part)
    | SummaryTextDone(itemID: string, outputIndex: int, text: string)
    | SummaryPartDone(itemID: string, outputIndex: int, part: Part)
    | ArgumentsDone(itemID: string, outputIndex: int, name: string, arguments: string)
    | ItemDone(outputIndex: int, item: Item, itemID: string := "")
    | Completed(response: Response)
    | Incomplete(response: Response)
    | Failed(response: Response)
    | ErrorFrame(code: string, message: string)
    | OtherFrame
    | Malformed

  datatype Frame = Frame(sequence: int, body: Body)

  // ----- Items as the encoder builds them -----

  function MessageItem(id: string, status: string, content: seq<Part>): Item {
    Item(Message, id, status, "assistant", content, [], "", "", "", "")
  }

  function ReasoningItem(id: string, status: string, summary: seq<Part>, encrypted: string): Item {
    Item(Reasoning, id, status, "", [], summary, encrypted, "", "", "")
  }

  function CallItem(id: string, status: string, callID: string, name: string, arguments: string): Item {
    Item(FunctionCall, id, status, "", [], [], "", callID, name, arguments)
  }

  // ----- Terminal response to canonical -----

  /** firstNonEmpty of the protocol package: blank counts as empty. */
  function FirstNonBlank(a: string, b: string): string {
    if !IsBlank(a) then a else if !IsBlank(b) then b else ""
  }

  datatype Piece = SpokenPiece | RefusedPiece | SummaryPiece | ReasoningPiece

  function PieceOf(part: Part, piece: Piece): string {
    match (part, piece)
    case (OutputText(text), SpokenPiece) => text
    case (Refusal(refusal), RefusedPiece) => refusal
    case (SummaryText(text), SummaryPiece) => text
    case (ReasoningText(text), ReasoningPiece) => text
    case _ => ""
  }

  /** The parts of one type, concatenated. */
  function Pieces(parts: seq<Part>, piece: Piece): string {
    if parts == [] then "" else Pieces(parts[..|parts| - 1], piece) + PieceOf(parts[|parts| - 1], piece)
  }

  /** What the output list of a response says (the accumulators of the loop in
      OpenAIResponsesResponseToCanonical). */
  datatype Content = Content(text: string, refusal: string, reasoning: string, signature: string, calls: seq<ToolCall>)

  datatype ToolCall = ToolCall(id: string, name: string, arguments: string)

  function ContentStep(c: Content, item: Item): Content {
    match item.kind
    case Reasoning =>
      c.(reasoning := c.reasoning + Pieces(item.summary, SummaryPiece) + Pieces(item.content, ReasoningPiece),
         signature := FirstNonEmpty(item.encrypted, c.signature))
    case Message =>
      c.(text := c.text + Pieces(item.content, SpokenPiece), refusal := c.refusal + Pieces(item.content, RefusedPiece))
    case FunctionCall =>
      c.(calls := c.calls + [ToolCall(FirstNonBlank(item.callID, item.id), item.name, item.arguments)])
    case OtherItem => c
  }

  function ContentOf(output: seq<Item>): Content {
    if output == [] then Content("", "", "", "", [])
    else ContentStep(ContentOf(output[..|output| - 1]), output[|output| - 1])
  }

  datatype CanonicalResponse = CanonicalResponse(status: string, content: Content, finishReason: string, usage: Usage)

  /** The finish reason of a terminal response; None for a status that is an error. */
  function FinishReasonOf(status: string, incompleteReason: Option<string>, hasCalls: bool): Option<string> {
    if status == "completed" then Some(if hasCalls then "tool_calls" else "stop")
    else if status == "incomplete" then
      Some(if incompleteReason == Some("content_filter") then "content_filter" else "length")
    else if status == "" then Some(if hasCalls then "tool_calls" else "")
    else None
  }

  function ToCanonical(resp: Response): Option<CanonicalResponse> {
    var c := ContentOf(resp.output);
    match FinishReasonOf(resp.status, resp.incompleteReason, c.calls != [])
    case None => None
    case Some(reason) => Some(CanonicalResponse(resp.status, c, reason, resp.usage))
  }

  /** The loop of OpenAIResponsesResponseToCanonical. */
  method ResponseToCanonical(resp: Response) returns (r: Option<CanonicalResponse>)
    ensures r == ToCanonical(resp)
  {
    var text, refusal, reasoning, signature, calls := "", "", "", "", [];
    for i := 0 to |resp.output|
      invariant Content(text, refusal, reasoning, signature, calls) == ContentOf(resp.output[..i])
    {
      var item := resp.output[i];
      assert resp.output[..i + 1][..i] == resp.output[..i];
      match item.kind {
        case Reasoning =>
          var summary := ConcatPieces(item.summary, SummaryPiece);
          var inner := ConcatPieces(item.content, ReasoningPiece);
          reasoning := reasoning + summary + inner;
          if item.encrypted != "" {
            signature := item.encrypted;
          }
        case Message =>
          var spoken := ConcatPieces(item.content, SpokenPiece);
          var refused := ConcatPieces(item.content, RefusedPiece);
          text := text + spoken;
          refusal := refusal + refused;
        case FunctionCall =>
          calls := calls + [ToolCall(FirstNonBlank(item.callID, item.id), item.name, item.arguments)];
        case OtherItem =>
      }
    }
    assert resp.output[..|resp.output|] == resp.output;
    match FinishReasonOf(resp.status, resp.incompleteReason, calls != []) {
      case None => r := None;
      case Some(reason) =>
        r := Some(CanonicalResponse(resp.status, Content(text, refusal, reasoning, signature, calls), reason, resp.usage));
    }
  }

  method ConcatPieces(parts: seq<Part>, piece: Piece) returns (s: string)
    ensures s == Pieces(parts, piece)
  {
    s := "";
    for i := 0 to |parts|
      invariant s == Pieces(parts[..i], piece)
    {
      assert parts[..i + 1][..i] == parts[..i];
      s := s + PieceOf(parts[i], piece);
    }
    assert parts[..|parts|] == parts;
  }
}
