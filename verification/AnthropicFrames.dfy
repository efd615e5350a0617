/** The event frames of an Anthropic Messages stream, one per `data:` line, and the
    tables between its stop reasons and the canonical finish reasons
    (internal/protocol/anthropic.go:654-682). */
module AnthropicFrames {
  import opened Canonical

  datatype Block = TextBlock | ThinkingBlock | ToolUseBlock(id: string, name: string) | OtherBlock

  datatype BlockPart =
    | TextPart(text: string)
    | ThinkingPart(thinking: string)
    | SignaturePart(signature: string)
    | JsonPart(partial: string)
    | OtherPart

  datatype StopDetails = StopDetails(explanation: string, category: string)

  /** AnthropicUsage; `thinking` is 0 when the details object is missing. */
  datatype TokenUsage = TokenUsage(input: int, output: int, cacheCreation: int, cacheRead: int, thinking: int)

  datatype Frame =
    | MessageStarted(id: string, model: string, role: string, usage: TokenUsage)
    | BlockStart(index: int, block: Block)
    | BlockDelta(index: int, delta: BlockPart)
    | BlockStop(index: int)
    | MessageDelta(stopReason: string, details: Option<StopDetails>, usage: TokenUsage)
    | MessageStop
    | ErrorFrame(kind: string, message: string)
    | OtherFrame
    | Malformed

  function FinishToStop(reason: string): string {
    if reason == "" || reason == "stop" then "end_turn"
    else if reason == "length" then "max_tokens"
    else if reason == "tool_calls" then "tool_use"
    else if reason == "content_filter" then "refusal"
    else reason
  }

  function StopToFinish(reason: string): string {
    if reason == "end_turn" || reason == "stop_sequence" || reason == "pause_turn" then "stop"
    else if reason == "max_tokens" || reason == "model_context_window_exceeded" then "length"
    else if reason == "tool_use" then "tool_calls"
    else if reason == "refusal" then "content_filter"
    else reason
  }

  /** A finish reason comes back as itself exactly when it is not empty and not the name
      of an Anthropic stop reason. */
  lemma FinishReasonReturns(reason: string)
    ensures StopToFinish(FinishToStop(reason)) == reason <==>
            reason !in {"", "end_turn", "stop_sequence", "pause_turn", "max_tokens",
                        "model_context_window_exceeded", "tool_use", "refusal"}
  {
    assert |"stop"| == 4 && |"length"| == 6 && |"tool_calls"| == 10 && |"content_filter"| == 14;
    assert |"end_turn"| == 8 && |"max_tokens"| == 10 && |"tool_use"| == 8 && |"refusal"| == 7;
    assert |"stop_sequence"| == 13 && |"pause_turn"| == 10 && |"model_context_window_exceeded"| == 29;
    assert "max_tokens"[0] == 'm' && "tool_calls"[0] == 't' && "pause_turn"[0] == 'p';
    assert "end_turn"[0] == 'e' && "tool_use"[0] == 't';
  }

  /** strings.Contains. */
  predicate Contains(s: string, sub: string) {
    exists k: nat :: k <= |s| && sub <= s[k..]
  }

  /** anthropicStreamErrorType. */
  function ErrorTypeOf(code: string): string {
    var value := ToLower(Trim(code));
    if Contains(value, "rate") || Contains(value, "resource_exhausted") then "rate_limit_error"
    else if Contains(value, "auth") || Contains(value, "api_key") then "authentication_error"
    else if Contains(value, "permission") then "permission_error"
    else if Contains(value, "not_found") then "not_found_error"
    else if Contains(value, "invalid") then "invalid_request_error"
    else if Contains(value, "overload") || Contains(value, "unavailable") then "overloaded_error"
    else "api_error"
  }
}
