/** Whole responses: CanonicalToOpenAIResponsesResponse and its reading back
    (internal/protocol/openai_responses.go:353-486). */
module ResponsesBody {
  import opened Canonical
  import opened ResponsesFrames
  import opened ResponsesEncoderSpec
  import ResponsesRoundTrip

  /** responsesOutputItemID. */
  function OutputItemID(responseID: string, kind: string, index: int): string {
    (if IsBlank(responseID) then "resp" else Trim(responseID)) + "_" + kind + "_" + FormatInt(index)
  }

  function ReasoningItems(id: string, c: Content): seq<Item> {
    if c.reasoning == "" && c.signature == "" then []
    else [ReasoningItem(OutputItemID(id, "rs", 0), "completed", [SummaryText(c.reasoning)], c.signature)]
  }

  /** One message, for the refusal if there is one, else for the text. */
  function MessageItems(id: string, role: string, status: string, c: Content, index: int): seq<Item> {
    if c.text == "" && c.refusal == "" then [] else
      [MessageItem(OutputItemID(id, "msg", index), if status == "incomplete" then "incomplete" else "completed",
                   [if c.refusal != "" then Refusal(c.refusal) else OutputText(c.text)]).(role := FirstNonBlank(role, "assistant"))]
  }

  function CallItems(id: string, calls: seq<ToolCall>, offset: int): seq<Item> {
    if calls == [] then [] else
      var n := |calls| - 1;
      var itemID, call := OutputItemID(id, "fc", offset + n), calls[n];
      CallItems(id, calls[..n], offset) + [CallItem(itemID, "completed", FirstNonBlank(call.id, itemID), call.name, call.arguments)]
  }

  function OutputOf(id: string, role: string, status: string, c: Content): seq<Item> {
    var reasoning := ReasoningItems(id, c);
    var spoken := reasoning + MessageItems(id, role, status, c, |reasoning|);
    spoken + CallItems(id, c.calls, |spoken|)
  }

  function ToResponse(id: string, created: int, model: string, role: string, r: CanonicalResponse): Response {
    var status := ResponseStatus(r.status, r.finishReason, r.content.refusal);
    Response(id, created, model, status,
             if status == "incomplete" then Some(if r.finishReason == "content_filter" then "content_filter" else "max_output_tokens")
             else None,
             OutputOf(id, role, status, r.content), r.usage)
  }

  /** The reasoning item and the message item. */
  method SpokenOutput(id: string, role: string, status: string, c: Content) returns (output: seq<Item>)
    ensures output == ReasoningItems(id, c) + MessageItems(id, role, status, c, |ReasoningItems(id, c)|)
  {
    hide OutputItemID, FirstNonBlank;
    output := [];
    if c.reasoning != "" || c.signature != "" {
      output := output + [ReasoningItem(OutputItemID(id, "rs", |output|), "completed", [SummaryText(c.reasoning)], c.signature)];
    }
    if c.text != "" || c.refusal != "" {
      var part := OutputText(c.text);
      if c.refusal != "" {
        part := Refusal(c.refusal);
      }
      output := output + [MessageItem(OutputItemID(id, "msg", |output|), if status == "incomplete" then "incomplete" else "completed",
                                      [part]).(role := FirstNonBlank(role, "assistant"))];
    }
  }

  /** The function call items. */
  method AddCalls(id: string, calls: seq<ToolCall>, spoken: seq<Item>) returns (output: seq<Item>)
    ensures output == spoken + CallItems(id, calls, |spoken|)
  {
    hide OutputItemID, FirstNonBlank;
    output := spoken;
    for k := 0 to |calls|
      invariant output == spoken + CallItems(id, calls[..k], |spoken|) && |output| == |spoken| + k
    {
      assert calls[..k + 1][..k] == calls[..k];
      var itemID := OutputItemID(id, "fc", |output|);
      output := output + [CallItem(itemID, "completed", FirstNonBlank(calls[k].id, itemID), calls[k].name, calls[k].arguments)];
    }
    assert calls[..|calls|] == calls;
  }

  /** CanonicalToOpenAIResponsesResponse. */
  method ResponseFromCanonical(id: string, created: int, model: string, role: string, r: CanonicalResponse) returns (resp: Response)
    ensures resp == ToResponse(id, created, model, role, r)
  {
    hide ReasoningItems, MessageItems, CallItems;
    var status := if r.finishReason == "length" || r.finishReason == "content_filter" then "incomplete" else "completed";
    if r.status == "incomplete" {
      status := "incomplete";
    } else if r.status == "completed" || (r.status == "" && r.content.refusal != "") {
      status := "completed";
    }
    var reason := None;
    if status == "incomplete" {
      reason := Some(if r.finishReason == "content_filter" then "content_filter" else "max_output_tokens");
    }
    var spoken := SpokenOutput(id, role, status, r.content);
    var output := AddCalls(id, r.content.calls, spoken);
    resp := Response(id, created, model, status, reason, output, r.usage);
  }

  // ----- What is written -----

  /** The item `j` of a response, named after the response, its kind and its place. */
  predicate Named(output: seq<Item>, j: int, id: string, kind: string, status: string) {
    0 <= j < |output| && output[j].status == status &&
    output[j].id == (if Trim(id) == "" then "resp" else Trim(id)) + "_" + kind + "_" + FormatInt(j)
  }

  lemma {:induction false} CallItemAt(id: string, calls: seq<ToolCall>, offset: int, k: nat)
    requires k < |calls|
    ensures |CallItems(id, calls, offset)| == |calls|
    ensures var itemID := OutputItemID(id, "fc", offset + k);
            CallItems(id, calls, offset)[k] == CallItem(itemID, "completed", FirstNonBlank(calls[k].id, itemID), calls[k].name, calls[k].arguments)
  {
    hide OutputItemID, FirstNonBlank;
    var n := |calls| - 1;
    CallItemsLength(id, calls[..n], offset);
    if k < n {
      CallItemAt(id, calls[..n], offset, k);
    }
  }

  lemma {:induction false} CallItemsLength(id: string, calls: seq<ToolCall>, offset: int)
    ensures |CallItems(id, calls, offset)| == |calls|
  {
    if calls != [] {
      CallItemsLength(id, calls[..|calls| - 1], offset);
    }
  }

  lemma NameOf(id: string, kind: string, index: int)
    ensures OutputItemID(id, kind, index) == (if Trim(id) == "" then "resp" else Trim(id)) + "_" + kind + "_" + FormatInt(index)
  {
    TrimShape(id);
  }

  /** The output of a response: the reasoning if there is any, a message if there are words, then
      one item for each call; each named after its place. */
  lemma BodyWrites(id: string, created: int, model: string, role: string, r: CanonicalResponse, k: nat)
    ensures var resp, c := ToResponse(id, created, model, role, r), r.content;
            var m := if c.reasoning != "" || c.signature != "" then 1 else 0;
            var n := if c.text != "" || c.refusal != "" then m + 1 else m;
            && resp.id == id && resp.created == created && resp.model == model && resp.usage == r.usage
            && |resp.output| == n + |c.calls|
            && (m == 1 ==> resp.output[0].kind == Reasoning && Named(resp.output, 0, id, "rs", "completed"))
            && (n == m + 1 ==> resp.output[m].kind == Message && Named(resp.output, m, id, "msg", resp.status)
                               && resp.output[m].role == (if IsBlank(role) then "assistant" else role))
            && (k < |c.calls| ==> resp.output[n + k].kind == FunctionCall && Named(resp.output, n + k, id, "fc", "completed")
                                  && resp.output[n + k].callID == (if IsBlank(c.calls[k].id) then resp.output[n + k].id else c.calls[k].id)
                                  && resp.output[n + k].name == c.calls[k].name && resp.output[n + k].arguments == c.calls[k].arguments)
  {
    hide OutputItemID, CallItems, FormatInt, IsBlank, Trim;
    var resp, c := ToResponse(id, created, model, role, r), r.content;
    var n := |resp.output| - |CallItems(id, c.calls, |ReasoningItems(id, c)| + |MessageItems(id, role, resp.status, c, |ReasoningItems(id, c)|)|)|;
    CallItemsLength(id, c.calls, n);
    NameOf(id, "rs", 0);
    NameOf(id, "msg", |ReasoningItems(id, c)|);
    SpokenIsNotBlank();
    if k < |c.calls| {
      CallItemAt(id, c.calls, n, k);
      NameOf(id, "fc", n + k);
      ItemIDNonBlank(id, n + k);
    }
  }

  lemma SpokenIsNotBlank()
    ensures !IsBlank("assistant")
  {
    assert "assistant"[0] in "assistant" && !IsSpace("assistant"[0]);
  }

  // ----- There and back -----

  /** The calls as they come back: a blank id is replaced by the item's. */
  function CallsBack(id: string, calls: seq<ToolCall>, offset: int): seq<ToolCall> {
    if calls == [] then [] else
      var n := |calls| - 1;
      CallsBack(id, calls[..n], offset) + [calls[n].(id := FirstNonBlank(calls[n].id, OutputItemID(id, "fc", offset + n)))]
  }

  lemma ItemIDNonBlank(id: string, index: int)
    ensures !IsBlank(OutputItemID(id, "fc", index))
  {
    var prefix := (if IsBlank(id) then "resp" else Trim(id)) + "_";
    var s := OutputItemID(id, "fc", index);
    assert s[|prefix|] == 'f' && s[|prefix|] in s && !IsSpace('f');
  }

  lemma ContentSnoc(output: seq<Item>, item: Item)
    ensures ContentOf(output + [item]) == ContentStep(ContentOf(output), item)
  {
    assert (output + [item])[..|output|] == output;
  }

  lemma {:induction false} CallsReadBack(before: seq<Item>, id: string, calls: seq<ToolCall>, offset: int)
    requires ContentOf(before).calls == []
    ensures ContentOf(before + CallItems(id, calls, offset)) == ContentOf(before).(calls := CallsBack(id, calls, offset))
  {
    hide ContentOf, OutputItemID, IsBlank;
    if calls == [] {
      assert before + [] == before;
    } else {
      var n := |calls| - 1;
      CallsReadBack(before, id, calls[..n], offset);
      var item := CallItems(id, calls, offset)[|CallItems(id, calls[..n], offset)|];
      ItemIDNonBlank(id, offset + n);
      assert before + CallItems(id, calls, offset) == before + CallItems(id, calls[..n], offset) + [item];
      ContentSnoc(before + CallItems(id, calls[..n], offset), item);
    }
  }

  lemma OnePiece(part: Part, piece: Piece)
    ensures Pieces([part], piece) == PieceOf(part, piece)
  {
    assert [part][..0] == [];
    assert "" + PieceOf(part, piece) == PieceOf(part, piece);
  }

  lemma NoPieces(piece: Piece)
    ensures Pieces([], piece) == ""
  {}

  lemma ReasoningReadsBack(id: string, c: Content)
    ensures ContentOf(ReasoningItems(id, c)) == Content("", "", c.reasoning, c.signature, [])
  {
    hide OutputItemID;
    if ReasoningItems(id, c) != [] {
      var item := ReasoningItems(id, c)[0];
      ContentSnoc([], item);
      assert [] + [item] == ReasoningItems(id, c);
      OnePiece(SummaryText(c.reasoning), SummaryPiece);
      NoPieces(ReasoningPiece);
      assert "" + c.reasoning + "" == c.reasoning;
    }
  }

  lemma MessageSays(c: Content, item: Item, part: Part)
    requires c.text == "" && c.refusal == "" && item.kind == Message
    requires Pieces(item.content, SpokenPiece) == PieceOf(part, SpokenPiece)
    requires Pieces(item.content, RefusedPiece) == PieceOf(part, RefusedPiece)
    ensures ContentStep(c, item) == c.(text := PieceOf(part, SpokenPiece), refusal := PieceOf(part, RefusedPiece))
  {}

  lemma MessageReadsBack(before: seq<Item>, id: string, role: string, status: string, c: Content, index: int)
    requires ContentOf(before).text == "" && ContentOf(before).refusal == ""
    ensures ContentOf(before + MessageItems(id, role, status, c, index))
         == ContentOf(before).(text := if c.refusal != "" then "" else c.text, refusal := c.refusal)
  {
    hide OutputItemID, IsBlank, ContentOf, FirstNonBlank, ContentStep, Pieces;
    if MessageItems(id, role, status, c, index) == [] {
      assert before + [] == before;
    } else {
      var item := MessageItems(id, role, status, c, index)[0];
      ContentSnoc(before, item);
      var part := if c.refusal != "" then Refusal(c.refusal) else OutputText(c.text);
      OnePiece(part, SpokenPiece);
      OnePiece(part, RefusedPiece);
      MessageSays(ContentOf(before), item, part);
    }
  }

  /** A response written and read back: the refusal takes the place of the text, calls without an
      id get one, and the finish is what the status can carry. */
  lemma BodyReadsBack(id: string, created: int, model: string, role: string, r: CanonicalResponse)
    ensures var c, resp := r.content, ToResponse(id, created, model, role, r);
            var offset := |ReasoningItems(id, c)| + |MessageItems(id, role, resp.status, c, |ReasoningItems(id, c)|)|;
            ToCanonical(resp) == Some(CanonicalResponse(
              resp.status,
              Content(if c.refusal != "" then "" else c.text, c.refusal, c.reasoning, c.signature, CallsBack(id, c.calls, offset)),
              ResponsesRoundTrip.FinishReadBack(r.status, r.finishReason, c.refusal, c.calls != []),
              r.usage))
  {
    hide ContentOf, ReasoningItems, MessageItems, CallItems, CallsBack, FinishReasonOf, ResponsesRoundTrip.FinishReadBack;
    var c, resp := r.content, ToResponse(id, created, model, role, r);
    var reasoning := ReasoningItems(id, c);
    ReasoningReadsBack(id, c);
    MessageReadsBack(reasoning, id, role, resp.status, c, |reasoning|);
    var spoken := reasoning + MessageItems(id, role, resp.status, c, |reasoning|);
    CallsReadBack(spoken, id, c.calls, |spoken|);
    CallsBackLength(id, c.calls, |spoken|);
    FinishReadsBack(r, resp.incompleteReason, c.calls != []);
  }

  lemma FinishReadsBack(r: CanonicalResponse, incompleteReason: Option<string>, hasCalls: bool)
    requires var status := ResponseStatus(r.status, r.finishReason, r.content.refusal);
             status == "incomplete" ==> incompleteReason == Some(if r.finishReason == "content_filter" then "content_filter" else "max_output_tokens")
    ensures FinishReasonOf(ResponseStatus(r.status, r.finishReason, r.content.refusal), incompleteReason, hasCalls)
         == Some(ResponsesRoundTrip.FinishReadBack(r.status, r.finishReason, r.content.refusal, hasCalls))
  {
    assert "max_output_tokens" != "content_filter" by {
      assert |"max_output_tokens"| == 17 && |"content_filter"| == 14;
    }
  }

  predicate AllHaveIDs(calls: seq<ToolCall>) {
    forall call <- calls :: !IsBlank(call.id)
  }

  lemma AllHaveIDsSnoc(calls: seq<ToolCall>, call: ToolCall)
    ensures AllHaveIDs(calls + [call]) <==> AllHaveIDs(calls) && !IsBlank(call.id)
  {
    hide IsBlank;
    assert forall c :: c in calls + [call] <==> c in calls || c == call;
  }

  lemma IDComesBackIff(id: string, call: ToolCall, index: int)
    ensures call.(id := FirstNonBlank(call.id, OutputItemID(id, "fc", index))) == call <==> !IsBlank(call.id)
  {
    hide OutputItemID, IsBlank;
    ItemIDNonBlank(id, index);
  }

  lemma {:induction false} CallsComeBackIff(id: string, calls: seq<ToolCall>, offset: int)
    ensures CallsBack(id, calls, offset) == calls <==> AllHaveIDs(calls)
  {
    hide IsBlank, OutputItemID, FirstNonBlank, AllHaveIDs;
    if calls == [] {
      assert AllHaveIDs([]) by { NoIDs(); }
    } else {
      var n := |calls| - 1;
      CallsComeBackIff(id, calls[..n], offset);
      IDComesBackIff(id, calls[n], offset + n);
      AllHaveIDsSnoc(calls[..n], calls[n]);
      CallsBackLength(id, calls[..n], offset);
      var before, last := CallsBack(id, calls[..n], offset), calls[n].(id := FirstNonBlank(calls[n].id, OutputItemID(id, "fc", offset + n)));
      assert calls == calls[..n] + [calls[n]];
      assert (before + [last])[..n] == before && (before + [last])[n] == last;
    }
  }

  lemma NoIDs()
    ensures AllHaveIDs([])
  {}

  lemma {:induction false} CallsBackLength(id: string, calls: seq<ToolCall>, offset: int)
    ensures |CallsBack(id, calls, offset)| == |calls|
  {
    if calls != [] {
      CallsBackLength(id, calls[..|calls| - 1], offset);
    }
  }

  /** A response comes back unchanged exactly when it does not both speak and refuse, its calls
      have ids, and its status and finish reason are those a terminal response can carry. */
  lemma BodyReturnsIff(id: string, created: int, model: string, role: string, r: CanonicalResponse)
    ensures ToCanonical(ToResponse(id, created, model, role, r)) == Some(r) <==>
            && (r.content.text == "" || r.content.refusal == "")
            && AllHaveIDs(r.content.calls)
            && (r.status == "completed" || r.status == "incomplete")
            && r.finishReason == (if r.status == "incomplete" then if r.finishReason == "content_filter" then "content_filter" else "length"
                                  else if r.content.calls != [] then "tool_calls" else "stop")
  {
    hide ToCanonical, OutputOf, ReasoningItems, MessageItems, AllHaveIDs, CallsBack;
    BodyReadsBack(id, created, model, role, r);
    var c, resp := r.content, ToResponse(id, created, model, role, r);
    CallsComeBackIff(id, c.calls, |ReasoningItems(id, c)| + |MessageItems(id, role, resp.status, c, |ReasoningItems(id, c)|)|);
  }
}
