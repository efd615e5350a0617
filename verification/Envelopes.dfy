/** What surrounds the items of a stream: its first frame, its terminal frame and an error
    frame (internal/stream_convert.go:53-83, 115-126, 441-499, 524-579, 715-768). */
module Envelopes {
  import opened Canonical
  import opened ResponsesFrames
  import opened ResponsesEncoderSpec
  import ResponsesGrammar
  import ResponsesMeaning
  import ResponsesReader
  import ResponsesFollows
  import AnthropicFrames
  import AnthropicEncoderSpec

  // ----- Responses -----

  /** The first frame stays the first, and the response keeps its id, its time and its model. */
  predicate Continues(s: Encoder, s': Encoder) {
    && (s.frames != [] ==> s'.frames != [] && s'.frames[0] == s.frames[0])
    && s'.id == s.id && s'.created == s.created && s'.model == s.model
  }

  lemma CloseContinues(s: Encoder)
    ensures Continues(s, CloseReasoning(s))
  {}

  lemma TextContinues(s: Encoder, delta: string, refusal: bool)
    ensures Continues(s, WriteTextDelta(s, delta, refusal))
  {
    hide CloseReasoning;
    CloseContinues(s);
  }

  lemma OpenContinues(s: Encoder)
    ensures Continues(s, EnsureReasoning(s))
  {}

  lemma ReasoningContinues(s: Encoder, delta: string, signature: string)
    ensures Continues(s, WriteReasoningDelta(s, delta, signature))
  {
    hide EnsureReasoning;
    OpenContinues(s);
  }

  lemma StartContinues(s: Encoder, index: int, callID: string, name: string, signature: string)
    ensures Continues(s, WriteToolStart(s, index, callID, name, signature))
  {
    hide CloseReasoning, FormatInt;
    CloseContinues(s);
  }

  lemma WriteContinues(s: Encoder, e: Event)
    requires !e.IsTerminal()
    ensures Continues(s, Step(s, e))
  {
    hide WriteToolStart, WriteTextDelta, WriteReasoningDelta, FormatInt;
    if e.IsTool() {
      StartContinues(s, e.index, e.callID, e.name, if e.ToolDelta? then "" else e.signature);
    } else if e.TextDelta? || e.RefusalDelta? {
      TextContinues(s, e.delta, e.RefusalDelta?);
    } else if e.ReasoningDelta? {
      ReasoningContinues(s, e.delta, e.signature);
    }
  }

  lemma {:induction false} CloseToolsContinues(s: Encoder, indexes: seq<int>)
    ensures Continues(s, CloseTools(s, indexes))
  {
    if indexes != [] {
      CloseToolsContinues(s, indexes[..|indexes| - 1]);
    }
  }

  lemma FinishContinues(s: Encoder, status: string, reason: string, usage: Usage, indexes: seq<int>)
    ensures Continues(s, Finish(s, status, reason, usage, indexes))
  {
    var counted := s.(usage := if usage.IsZero() then s.usage else usage);
    var status' := ResponseStatus(status, reason, if s.textRefusal then s.text else "");
    CloseToolsContinues(CloseText(CloseReasoning(counted), status'), indexes);
  }

  /** Every stream begins with a response of its own id, time and model in progress, without
      output. */
  lemma {:induction false} BeginsInProgress(id: string, created: int, model: string, events: seq<Event>)
    ensures var s := Encode(id, created, model, events);
            && s.id == id && s.created == created && s.model == model
            && s.frames != []
            && s.frames[0] == Frame(0, Created(Response(id, created, model, "in_progress", None, [], NO_USAGE)))
  {
    if events != [] {
      var before, e := events[..|events| - 1], events[|events| - 1];
      BeginsInProgress(id, created, model, before);
      var s := Encode(id, created, model, before);
      if !e.IsTerminal() {
        WriteContinues(s, e);
      } else if e.ResponseDone? {
        FinishContinues(s, e.status, e.finishReason, s.usage, SortedKeys(s.tools.Keys));
      }
    }
  }

  /** Whether a finish leaves the response incomplete: the status says so, or says nothing and
      the reason does; but a stream that opens with a refusal is complete unless told otherwise. */
  predicate EndsIncomplete(events: seq<Event>, status: string, reason: string) {
    || status == "incomplete"
    || (status != "completed" && (reason == "length" || reason == "content_filter") && (status == "" ==> !OpensWithRefusal(events)))
  }

  /** The terminal frame of every finished stream: the response of the first frame, completed or
      incomplete, with the reason and the usage last reported. */
  lemma EndsAsTold(id: string, created: int, model: string, events: seq<Event>, status: string, reason: string)
    requires NoTerminal(events)
    ensures var frames := Encode(id, created, model, events + [ResponseDone(status, reason)]).frames;
            && frames != []
            && var last := frames[|frames| - 1].body;
            && (if EndsIncomplete(events, status, reason) then last.Incomplete? else last.Completed?)
            && last.response.id == id && last.response.created == created && last.response.model == model
            && last.response.usage == UsageOf(events)
            && last.response.status == (if EndsIncomplete(events, status, reason) then "incomplete" else "completed")
            && last.response.incompleteReason ==
                 if !EndsIncomplete(events, status, reason) then None
                 else if reason == "content_filter" then Some("content_filter") else Some("max_output_tokens")
  {
    hide Encode, CloseAll, UsageOf, SortedKeys, SortedOutput, OpensWithRefusal, ResponsesMeaning.ToolsMean, ResponsesGrammar.Phases;
    var s := Encode(id, created, model, events);
    EncodeSnoc(id, created, model, events, ResponseDone(status, reason));
    ResponsesGrammar.RunLive(id, created, model, events);
    ResponsesMeaning.EncodeMeans(id, created, model, events);
    BeginsInProgress(id, created, model, events);
    FinishesAsTold(s, status, reason, s.usage, SortedKeys(s.tools.Keys));
  }

  lemma FinishesAsTold(s: Encoder, status: string, reason: string, usage: Usage, indexes: seq<int>)
    requires !s.finished && usage == s.usage
    ensures var s', status' := Finish(s, status, reason, usage, indexes), ResponseStatus(status, reason, if s.textRefusal then s.text else "");
            && s'.frames != []
            && var last := s'.frames[|s'.frames| - 1].body;
            && (if status' == "incomplete" then last.Incomplete? else last.Completed?)
            && last.response.id == s.id && last.response.created == s.created && last.response.model == s.model
            && last.response.usage == s.usage && last.response.status == status'
            && last.response.incompleteReason ==
                 if status' != "incomplete" then None
                 else if reason == "content_filter" then Some("content_filter") else Some("max_output_tokens")
  {
    hide CloseAll, SortedOutput, ResponseStatus;
    assert s.(usage := if usage.IsZero() then s.usage else usage) == s;
    ClosesAsTold(s, ResponseStatus(status, reason, if s.textRefusal then s.text else ""), indexes);
  }

  lemma ClosesAsTold(s: Encoder, status: string, indexes: seq<int>)
    ensures var closed := CloseAll(s, status, indexes);
            Continues(s, closed) && closed.usage == s.usage
  {
    CloseToolsContinues(CloseText(CloseReasoning(s), status), indexes);
    CloseToolsCounts(CloseText(CloseReasoning(s), status), indexes);
  }

  lemma {:induction false} CloseToolsCounts(s: Encoder, indexes: seq<int>)
    ensures CloseTools(s, indexes).usage == s.usage
  {
    if indexes != [] {
      CloseToolsCounts(s, indexes[..|indexes| - 1]);
    }
  }

  /** An error is told in one frame more, or ends the stream without a word. */
  lemma FailsAsTold(id: string, created: int, model: string, events: seq<Event>, error: Option<ErrorData>)
    requires NoTerminal(events)
    ensures var s := Encode(id, created, model, events);
            Encode(id, created, model, events + [StreamError(error)]).frames == s.frames +
              if error.None? then [] else [Frame(|s.frames|, ErrorFrame(error.value.code, error.value.message))]
  {
    hide Encode, ResponsesGrammar.Phases;
    EncodeSnoc(id, created, model, events, StreamError(error));
    ResponsesGrammar.RunLive(id, created, model, events);
  }

  // ----- The status of a message -----

  /** The messages among the finished items. */
  predicate MessagesHave(output: map<int, Item>, status: string) {
    forall j | j in output && output[j].kind == Message :: output[j].status == status
  }

  lemma CloseToolHas(s: Encoder, index: int, status: string)
    requires MessagesHave(s.output, status)
    ensures MessagesHave(CloseTool(s, index).output, status)
  {}

  lemma {:induction false} CloseToolsHave(s: Encoder, indexes: seq<int>, status: string)
    requires MessagesHave(s.output, status)
    ensures MessagesHave(CloseTools(s, indexes).output, status)
  {
    hide CloseTool, MessagesHave;
    if indexes != [] {
      CloseToolsHave(s, indexes[..|indexes| - 1], status);
      CloseToolHas(CloseTools(s, indexes[..|indexes| - 1]), indexes[|indexes| - 1], status);
    }
  }

  lemma CloseSpeechHas(s: Encoder, status: string)
    requires forall j | j in s.output :: s.output[j].kind != Message
    ensures MessagesHave(CloseText(CloseReasoning(s), status).output, status)
  {
    var quiet := CloseReasoning(s);
    assert forall j | j in quiet.output :: quiet.output[j].kind != Message;
  }

  /** No message is finished before the stream is. */
  lemma NoMessageYet(id: string, created: int, model: string, events: seq<Event>)
    requires NoTerminal(events)
    ensures var s := Encode(id, created, model, events); forall j | j in s.output :: s.output[j].kind != Message
  {
    hide Encode, ResponsesReader.Read, ResponsesFollows.SpeechFollows, ResponsesFollows.CallsFollow, ResponsesGrammar.Sound;
    ResponsesFollows.EncodeFollows(id, created, model, events);
    ResponsesGrammar.RunLive(id, created, model, events);
  }

  lemma {:induction false} SortedMembers(output: map<int, Item>, n: int, item: Item)
    requires item in SortedOutput(output, n)
    ensures exists j :: j in output && output[j] == item
  {
    if item in SortedOutput(output, n - 1) {
      SortedMembers(output, n - 1, item);
    }
  }

  /** The message of a finished stream has the status of the response. */
  lemma MessageHasStatus(id: string, created: int, model: string, events: seq<Event>, status: string, reason: string, item: Item)
    requires NoTerminal(events) && item.kind == Message
    ensures var frames := Encode(id, created, model, events + [ResponseDone(status, reason)]).frames;
            && frames != []
            && var last := frames[|frames| - 1].body;
            && (last.Incomplete? || last.Completed?)
            && (item in last.response.output ==> item.status == last.response.status)
  {
    hide Encode, NoTerminal, ResponsesGrammar.Phases, CloseText, CloseReasoning, CloseTools, ResponseStatus, SortedKeys, SortedOutput;
    var s := Encode(id, created, model, events);
    EncodeSnoc(id, created, model, events, ResponseDone(status, reason));
    ResponsesGrammar.RunLive(id, created, model, events);
    NoMessageYet(id, created, model, events);
    var status' := ResponseStatus(status, reason, if s.textRefusal then s.text else "");
    assert s.(usage := if s.usage.IsZero() then s.usage else s.usage) == s;
    var closed := CloseAll(s, status', SortedKeys(s.tools.Keys));
    CloseSpeechHas(s, status');
    CloseToolsHave(CloseText(CloseReasoning(s), status'), SortedKeys(s.tools.Keys), status');
    if item in SortedOutput(closed.output, closed.nextIndex) {
      SortedMembers(closed.output, closed.nextIndex, item);
    }
  }

  // ----- Anthropic -----

  /** Every stream begins with an assistant's message of its own id and model, nothing counted. */
  lemma {:induction false} BeginsMessage(id: string, model: string, events: seq<Event>)
    ensures var frames := AnthropicEncoderSpec.Encode(id, model, events).frames;
            && frames != []
            && frames[0] == AnthropicFrames.MessageStarted(id, model, "assistant", AnthropicFrames.TokenUsage(0, 0, 0, 0, 0))
  {
    if events != [] {
      BeginsMessage(id, model, events[..|events| - 1]);
      AnthropicContinues(AnthropicEncoderSpec.Encode(id, model, events[..|events| - 1]), events[|events| - 1]);
    }
  }

  lemma AnthropicContinues(s: AnthropicEncoderSpec.Encoder, e: Event)
    ensures s.frames <= AnthropicEncoderSpec.Step(s, e).frames
  {
    hide AnthropicFrames.ErrorTypeOf, AnthropicFrames.FinishToStop, AnthropicEncoderSpec.UsageToTokens,
         AnthropicEncoderSpec.CloseText, AnthropicEncoderSpec.CloseReasoning, AnthropicEncoderSpec.WriteTool,
         AnthropicEncoderSpec.RefusalDetails;
    AnthropicCloses(s);
    AnthropicCloses(s.(finished := true));
    if e.ToolDone? {
      var pending := AnthropicEncoderSpec.ToolAt(s, e.index);
      var tool := AnthropicEncoderSpec.PendingTool(FirstNonEmpty(pending.id, e.callID), FirstNonEmpty(pending.name, e.name),
                                                   FirstNonEmpty(e.arguments, pending.arguments));
      var quiet := AnthropicEncoderSpec.CloseText(AnthropicEncoderSpec.CloseReasoning(s));
      AnthropicWrites(quiet.(tools := quiet.tools[e.index := tool]), tool);
    }
  }

  lemma AnthropicWrites(s: AnthropicEncoderSpec.Encoder, tool: AnthropicEncoderSpec.PendingTool)
    ensures s.frames <= AnthropicEncoderSpec.WriteTool(s, tool).frames
  {}

  lemma AnthropicCloses(s: AnthropicEncoderSpec.Encoder)
    ensures s.frames <= AnthropicEncoderSpec.CloseReasoning(s).frames
    ensures s.frames <= AnthropicEncoderSpec.CloseText(s).frames
    ensures s.frames <= AnthropicEncoderSpec.CloseText(AnthropicEncoderSpec.CloseReasoning(s)).frames
  {}

  /** The words of an error code and the kind of error each stands for; the first word found decides. */
  const ERROR_WORDS := [("rate", "rate_limit_error"), ("resource_exhausted", "rate_limit_error"),
                        ("auth", "authentication_error"), ("api_key", "authentication_error"),
                        ("permission", "permission_error"), ("not_found", "not_found_error"),
                        ("invalid", "invalid_request_error"),
                        ("overload", "overloaded_error"), ("unavailable", "overloaded_error")]

  predicate FoundIn(word: string, code: string) {
    AnthropicFrames.Contains(ToLower(Trim(code)), word)
  }

  /** The k-th word is the first one found, or none is and k is past the last. */
  predicate Decides(code: string, k: nat) {
    && k <= |ERROR_WORDS|
    && (forall l | 0 <= l < k :: !FoundIn(ERROR_WORDS[l].0, code))
    && (k < |ERROR_WORDS| ==> FoundIn(ERROR_WORDS[k].0, code))
  }

  lemma KindIsDecided(code: string, k: nat)
    requires Decides(code, k)
    ensures AnthropicFrames.ErrorTypeOf(code) == if k < |ERROR_WORDS| then ERROR_WORDS[k].1 else "api_error"
  {
    hide AnthropicFrames.Contains, ToLower, Trim;
    assert |ERROR_WORDS| == 9;
    assert forall l | 0 <= l < k :: !AnthropicFrames.Contains(ToLower(Trim(code)), ERROR_WORDS[l].0);
    assert ERROR_WORDS[0] == ("rate", "rate_limit_error") && ERROR_WORDS[1] == ("resource_exhausted", "rate_limit_error");
    assert ERROR_WORDS[2] == ("auth", "authentication_error") && ERROR_WORDS[3] == ("api_key", "authentication_error");
    assert ERROR_WORDS[4] == ("permission", "permission_error") && ERROR_WORDS[5] == ("not_found", "not_found_error");
    assert ERROR_WORDS[6] == ("invalid", "invalid_request_error");
    assert ERROR_WORDS[7] == ("overload", "overloaded_error") && ERROR_WORDS[8] == ("unavailable", "overloaded_error");
  }

  /** An error is told in one frame more under the kind its code decides, or ends the stream
      without a word. */
  lemma AnthropicFailsAsTold(id: string, model: string, events: seq<Event>, error: Option<ErrorData>, k: nat)
    requires NoTerminal(events) && (error.Some? ==> Decides(error.value.code, k))
    ensures AnthropicEncoderSpec.Encode(id, model, events + [StreamError(error)]).frames ==
            AnthropicEncoderSpec.Encode(id, model, events).frames +
              if error.None? then []
              else [AnthropicFrames.ErrorFrame(if k < |ERROR_WORDS| then ERROR_WORDS[k].1 else "api_error", error.value.message)]
  {
    hide AnthropicEncoderSpec.Encode, AnthropicEncoderSpec.PlaceOf, AnthropicFrames.ErrorTypeOf, Decides;
    AnthropicEncoderSpec.EncodeSnoc(id, model, events, StreamError(error));
    AnthropicEncoderSpec.RunLive(id, model, events);
    if error.Some? {
      KindIsDecided(error.value.code, k);
    }
  }
}
