/** What the Responses encoder holds about a stream is what the stream means. */
module ResponsesMeaning {
  import opened Canonical
  import opened ResponsesFrames
  import opened ResponsesEncoderSpec
  import opened ResponsesGrammar

  /** The call a tool of the encoder stands for: its item once done. */
  function CallOf(tool: EncoderTool, output: map<int, Item>): Call {
    if !tool.done then Open(tool.id, tool.name, tool.arguments)
    else if tool.outputIndex in output then
      var item := output[tool.outputIndex];
      Closed(item.callID, item.name, item.arguments)
    else Unseen
  }

  ghost predicate SpeechMeans(s: Encoder, events: seq<Event>) {
    && s.text == SpokenOf(events) && s.textRefusal == OpensWithRefusal(events)
    && s.reasoning == ReasoningOf(events) && s.reasoningSig == SignatureOf(events)
    && s.usage == UsageOf(events)
  }

  ghost predicate ToolsMean(s: Encoder, events: seq<Event>) {
    && (forall i | i !in s.tools :: CallAt(events, i).Unseen?)
    && (forall i | i in s.tools :: CallAt(events, i) == CallOf(s.tools[i], s.output) && !CallAt(events, i).Unseen?)
    && (forall i | i in s.tools :: 0 <= s.tools[i].outputIndex < s.nextIndex)
    && OrderedLike(s, ToolOrder(events))
  }

  /** Output indices follow the order of first mention. */
  ghost predicate OrderedLike(s: Encoder, order: seq<int>) {
    && (forall k | 0 <= k < |order| :: order[k] in s.tools)
    && (forall k, l | 0 <= k < l < |order| :: s.tools[order[k]].outputIndex < s.tools[order[l]].outputIndex)
  }

  ghost predicate Means(s: Encoder, events: seq<Event>) {
    SpeechMeans(s, events) && ToolsMean(s, events)
  }

  /** What the phases say about tools, without the frames: finished calls have an item
      that is not the open reasoning, and no two tools share an index. */
  ghost predicate Unmixed(s: Encoder) {
    && !s.finished && 0 <= s.nextIndex
    && (forall i | i in s.tools && s.tools[i].done ::
          s.tools[i].outputIndex in s.output && (s.reasoningOpen ==> s.tools[i].outputIndex != s.reasoningIndex))
    && (forall i | i in s.tools :: s.tools[i].outputIndex < s.nextIndex)
    && (forall i, k | i in s.tools && k in s.tools && i != k :: s.tools[i].outputIndex != s.tools[k].outputIndex)
  }

  ghost predicate Apart(s: Encoder) {
    Unmixed(s) && (s.text == "" <==> !s.textOpen) && (s.textRefusal ==> s.textOpen)
  }

  lemma LiveApart(s: Encoder)
    requires Live(s)
    ensures Apart(s)
  {
    PhasesUnmixed(s, Life(s.frames));
  }

  lemma PhasesUnmixed(s: Encoder, ph: int -> Phase)
    requires Phases(s, ph) && !s.finished
    ensures Unmixed(s)
  {
    forall i | i in s.tools && s.tools[i].done
      ensures s.tools[i].outputIndex in s.output && (s.reasoningOpen ==> s.tools[i].outputIndex != s.reasoningIndex)
    {
      assert ToolPhase(s, s.tools[i], ph);
    }
    forall i | i in s.tools ensures s.tools[i].outputIndex < s.nextIndex {
      assert ToolPhase(s, s.tools[i], ph);
    }
  }

  // ----- What each operation changes -----

  ghost predicate SameSpeech(s: Encoder, s': Encoder) {
    && s'.text == s.text && s'.textRefusal == s.textRefusal && s'.reasoning == s.reasoning
    && s'.reasoningSig == s.reasoningSig && s'.usage == s.usage
  }

  /** Finished calls other than the one at `index` still stand for what they stood for. */
  ghost predicate CallsKept(s: Encoder, s': Encoder, index: Option<int>) {
    && s.nextIndex <= s'.nextIndex
    && (forall i | i in s.tools && Some(i) != index ::
          i in s'.tools && s'.tools[i] == s.tools[i] && CallOf(s'.tools[i], s'.output) == CallOf(s.tools[i], s.output))
    && (forall i | i in s'.tools && Some(i) != index :: i in s.tools)
  }

  lemma CloseReasoningEffect(s: Encoder)
    requires Apart(s)
    ensures var s' := CloseReasoning(s);
            Apart(s') && SameSpeech(s, s') && CallsKept(s, s', None)
            && s'.tools == s.tools && s'.nextIndex == s.nextIndex && !s'.reasoningOpen && s'.textOpen == s.textOpen
  {}

  lemma TextEffect(s: Encoder, delta: string, refusal: bool)
    requires Apart(s)
    ensures var s' := WriteTextDelta(s, delta, refusal);
            && CallsKept(s, s', None)
            && s'.text == s.text + delta && s'.reasoning == s.reasoning && s'.reasoningSig == s.reasoningSig && s'.usage == s.usage
            && s'.textRefusal == (if s.text != "" then s.textRefusal else refusal && delta != "")
  {
    if delta != "" && !s.textOpen {
      CloseReasoningEffect(s);
    }
  }

  lemma ReasoningEffect(s: Encoder, delta: string, signature: string)
    ensures var s' := WriteReasoningDelta(s, delta, signature);
            && CallsKept(s, s', None)
            && s'.text == s.text && s'.textRefusal == s.textRefusal && s'.usage == s.usage
            && s'.reasoning == s.reasoning + delta && s'.reasoningSig == s.reasoningSig + signature
  {
    assert s.reasoning + "" == s.reasoning;
    assert s.reasoningSig + "" == s.reasoningSig;
    if delta == "" && signature == "" {
      assert WriteReasoningDelta(s, delta, signature) == s;
    } else {
      var ready := EnsureReasoning(s);
      assert ready.tools == s.tools && ready.output == s.output && ready.reasoning == s.reasoning;
    }
  }

  /** The index of a tool: kept once given, fresh when new. */
  ghost predicate IndexKept(s: Encoder, s': Encoder, index: int) {
    && index in s'.tools
    && if index in s.tools then s'.tools[index].outputIndex == s.tools[index].outputIndex
       else s.nextIndex <= s'.tools[index].outputIndex < s'.nextIndex
  }

  lemma StartEffect(s: Encoder, index: int, callID: string, name: string, signature: string)
    requires Apart(s)
    ensures var s' := WriteToolStart(s, index, callID, name, signature);
            && Apart(s') && SameSpeech(s, s') && CallsKept(s, s', Some(index)) && IndexKept(s, s', index)
            && (index !in s.tools ==> s'.tools[index].id == callID && s'.tools[index].name == name
                                      && s'.tools[index].arguments == "" && !s'.tools[index].done)
            && (index in s.tools ==>
                  s'.output == s.output && s'.tools[index] == s.tools[index].(
                    id := FirstNonEmpty(s.tools[index].id, callID), name := FirstNonEmpty(s.tools[index].name, name),
                    signature := s'.tools[index].signature))
  {
    if index !in s.tools {
      CloseReasoningEffect(s);
    }
  }

  lemma EnsureEffect(s: Encoder, index: int, callID: string, name: string, signature: string)
    requires Apart(s)
    ensures var s' := EnsureTool(s, index, callID, name, signature);
            && Apart(s') && SameSpeech(s, s') && CallsKept(s, s', Some(index)) && IndexKept(s, s', index)
            && (index in s.tools ==> s' == s)
            && (index !in s.tools ==> s'.tools[index].id == callID && s'.tools[index].name == name
                                      && s'.tools[index].arguments == "" && !s'.tools[index].done)
  {
    if index !in s.tools {
      StartEffect(s, index, callID, name, signature);
    }
  }

  lemma DeltaEffect(s: Encoder, index: int, callID: string, name: string, delta: string)
    requires Apart(s) && index in s.tools
    ensures var s' := WriteToolDelta(s, index, callID, name, delta);
            && SameSpeech(s, s') && CallsKept(s, s', Some(index)) && IndexKept(s, s', index)
            && s'.tools[index] == (if s.tools[index].done then s.tools[index]
                                   else s.tools[index].(arguments := s.tools[index].arguments + delta))
            && s'.output == s.output && s'.tools == s.tools[index := s'.tools[index]]
  {}

  lemma DoneEffect(s: Encoder, index: int, callID: string, name: string, arguments: string, signature: string)
    requires Unmixed(s) && index in s.tools
    ensures var s' := WriteToolDone(s, index, callID, name, arguments, signature);
            && SameSpeech(s, s') && CallsKept(s, s', Some(index)) && IndexKept(s, s', index)
            && var tool := s.tools[index];
               CallOf(s'.tools[index], s'.output) ==
               if tool.done then CallOf(tool, s.output)
               else Closed(FirstNonEmpty(tool.id, callID), FirstNonEmpty(tool.name, name), FirstNonEmpty(arguments, tool.arguments))
  {}

  // ----- What each event means -----

  /** Events that are not about tools. */
  lemma OtherMeans(s: Encoder, events: seq<Event>, s': Encoder, e: Event)
    requires ToolsMean(s, events) && !e.IsTool() && CallsKept(s, s', None)
    ensures ToolsMean(s', events + [e])
  {
    hide FirstNonEmpty;
    Snoc(events, e);
    forall i ensures CallAt(events + [e], i) == CallAt(events, i) {
      SnocCall(events, e, i);
    }
    OrderKept(s, ToolOrder(events), s');
  }

  lemma OrderKept(s: Encoder, order: seq<int>, s': Encoder)
    requires OrderedLike(s, order) && CallsKept(s, s', None)
    ensures OrderedLike(s', order)
  {
    forall k | 0 <= k < |order| ensures order[k] in s'.tools && s'.tools[order[k]] == s.tools[order[k]] {
      var i := order[k];
      assert i in s.tools && Some(i) != None;
    }
  }

  lemma StepIsSeen(call: Call, e: Event)
    requires e.IsTool()
    ensures !CallStep(call, e).Unseen?
  {}

  /** A tool event at `index`. */
  lemma ToolMeans(s: Encoder, events: seq<Event>, s': Encoder, e: Event, index: int)
    requires ToolsMean(s, events) && e.IsTool() && e.index == index && 0 <= s.nextIndex
    requires CallsKept(s, s', Some(index)) && IndexKept(s, s', index)
    requires CallOf(s'.tools[index], s'.output) == CallStep(CallAt(events, index), e)
    ensures ToolsMean(s', events + [e])
  {
    hide CallAt, ToolOrder, CallStep, CallOf, OrderedLike;
    StepIsSeen(CallAt(events, index), e);
    var more := events + [e];
    forall i
      ensures i !in s'.tools ==> CallAt(more, i).Unseen?
      ensures i in s'.tools ==> CallAt(more, i) == CallOf(s'.tools[i], s'.output) && !CallAt(more, i).Unseen?
    {
      SnocCall(events, e, i);
      assert i != index ==> Some(i) != Some(index);
    }
    assert OrderedLike(s', ToolOrder(more)) by {
      OrderMeans(s, events, s', e, index);
    }
  }

  lemma OrderMeans(s: Encoder, events: seq<Event>, s': Encoder, e: Event, index: int)
    requires ToolsMean(s, events) && e.IsTool() && e.index == index
    requires CallsKept(s, s', Some(index)) && IndexKept(s, s', index)
    ensures OrderedLike(s', ToolOrder(events + [e]))
  {
    hide CallAt, ToolOrder, CallOf, OrderedLike, CallsKept, IndexKept;
    ToolOrderIsSeen(events);
    Snoc(events, e);
    OrderGrows(s, ToolOrder(events), s', index);
  }

  lemma OrderGrows(s: Encoder, order: seq<int>, s': Encoder, index: int)
    requires OrderedLike(s, order) && (index in order <==> index in s.tools)
    requires CallsKept(s, s', Some(index)) && IndexKept(s, s', index)
    requires forall i | i in s.tools :: s.tools[i].outputIndex < s.nextIndex
    ensures OrderedLike(s', if index in order then order else order + [index])
  {
    var order' := if index in order then order else order + [index];
    forall k | 0 <= k < |order'| ensures order'[k] in s'.tools {
      assert order'[k] == index || order[k] in s.tools;
    }
    forall k, l | 0 <= k < l < |order'|
      ensures s'.tools[order'[k]].outputIndex < s'.tools[order'[l]].outputIndex
    {
      assert order'[k] == order[k] && order[k] in s.tools;
      assert l == |order| || (order'[l] == order[l] && order[l] in s.tools);
    }
  }

  lemma SpeechMore(s: Encoder, events: seq<Event>, s': Encoder, e: Event)
    requires SpeechMeans(s, events)
    requires s'.text == s.text + if e.TextDelta? || e.RefusalDelta? then e.delta else ""
    requires s'.textRefusal == if s.text != "" then s.textRefusal else e.RefusalDelta? && e.delta != ""
    requires s'.reasoning == s.reasoning + if e.ReasoningDelta? then e.delta else ""
    requires s'.reasoningSig == s.reasoningSig + if e.ReasoningDelta? then e.signature else ""
    requires s'.usage == if e.UsageReport? then e.usage else s.usage
    ensures SpeechMeans(s', events + [e])
  {
    Snoc(events, e);
    SnocSpoken(events, e);
  }

  lemma TextMeans(s: Encoder, events: seq<Event>, e: Event)
    requires Apart(s) && Means(s, events) && (e.TextDelta? || e.RefusalDelta?)
    ensures Means(WriteTextDelta(s, e.delta, e.RefusalDelta?), events + [e])
  {
    hide WriteTextDelta, ToolsMean, SpeechMeans, CallsKept;
    TextEffect(s, e.delta, e.RefusalDelta?);
    var s' := WriteTextDelta(s, e.delta, e.RefusalDelta?);
    SpeechMore(s, events, s', e);
    OtherMeans(s, events, s', e);
  }

  lemma ReasoningMeans(s: Encoder, events: seq<Event>, e: Event)
    requires Apart(s) && Means(s, events) && e.ReasoningDelta?
    ensures Means(WriteReasoningDelta(s, e.delta, e.signature), events + [e])
  {
    hide WriteReasoningDelta, ToolsMean, SpeechMeans, CallsKept;
    ReasoningEffect(s, e.delta, e.signature);
    var s' := WriteReasoningDelta(s, e.delta, e.signature);
    SpeechMore(s, events, s', e);
    OtherMeans(s, events, s', e);
  }

  lemma StartMeans(s: Encoder, events: seq<Event>, e: Event)
    requires Apart(s) && Means(s, events) && e.ToolStart?
    ensures Means(WriteToolStart(s, e.index, e.callID, e.name, e.signature), events + [e])
  {
    hide WriteToolStart, SpeechMeans, OrderedLike, CallAt, ToolOrder;
    StartEffect(s, e.index, e.callID, e.name, e.signature);
    var s' := WriteToolStart(s, e.index, e.callID, e.name, e.signature);
    SpeechMore(s, events, s', e);
    ToolMeans(s, events, s', e, e.index);
  }

  /** A delta or a done of a new call is one of the call it starts. */
  lemma EnsuredDelta(s: Encoder, e: Event)
    requires e.ToolDelta?
    ensures WriteToolDelta(EnsureTool(s, e.index, e.callID, e.name, ""), e.index, e.callID, e.name, e.delta) ==
            WriteToolDelta(s, e.index, e.callID, e.name, e.delta)
  {
    hide WriteToolStart, Emit;
  }

  lemma EnsuredDone(s: Encoder, e: Event)
    requires e.ToolDone?
    ensures WriteToolDone(EnsureTool(s, e.index, e.callID, e.name, e.signature), e.index, e.callID, e.name, e.arguments, e.signature) ==
            WriteToolDone(s, e.index, e.callID, e.name, e.arguments, e.signature)
  {
    hide WriteToolStart, Emit;
  }

  lemma DeltaMeans(s: Encoder, events: seq<Event>, e: Event)
    requires Apart(s) && Means(s, events) && e.ToolDelta?
    ensures Means(WriteToolDelta(s, e.index, e.callID, e.name, e.delta), events + [e])
  {
    hide SpeechMeans, OrderedLike, CallAt, ToolOrder, WriteToolDelta, EnsureTool, Emit;
    EnsureEffect(s, e.index, e.callID, e.name, "");
    var ready := EnsureTool(s, e.index, e.callID, e.name, "");
    DeltaEffect(ready, e.index, e.callID, e.name, e.delta);
    var s' := WriteToolDelta(ready, e.index, e.callID, e.name, e.delta);
    assert s' == WriteToolDelta(s, e.index, e.callID, e.name, e.delta) by { EnsuredDelta(s, e); }
    SpeechMore(s, events, s', e);
    ToolMeans(s, events, s', e, e.index);
  }

  lemma DoneMeans(s: Encoder, events: seq<Event>, e: Event)
    requires Apart(s) && Means(s, events) && e.ToolDone?
    ensures Means(WriteToolDone(s, e.index, e.callID, e.name, e.arguments, e.signature), events + [e])
  {
    hide SpeechMeans, OrderedLike, CallAt, ToolOrder, WriteToolDone, EnsureTool, Emit;
    EnsureEffect(s, e.index, e.callID, e.name, e.signature);
    var ready := EnsureTool(s, e.index, e.callID, e.name, e.signature);
    DoneEffect(ready, e.index, e.callID, e.name, e.arguments, e.signature);
    var s' := WriteToolDone(ready, e.index, e.callID, e.name, e.arguments, e.signature);
    assert s' == WriteToolDone(s, e.index, e.callID, e.name, e.arguments, e.signature) by { EnsuredDone(s, e); }
    SpeechMore(s, events, s', e);
    ToolMeans(s, events, s', e, e.index);
  }

  lemma QuietMeans(s: Encoder, events: seq<Event>, e: Event)
    requires Apart(s) && Means(s, events) && (e.UsageReport? || e.ResponseStart? || e.MessageStart?)
    ensures Means(if e.UsageReport? then s.(usage := e.usage) else s, events + [e])
  {
    var s' := if e.UsageReport? then s.(usage := e.usage) else s;
    SpeechMore(s, events, s', e);
    OtherMeans(s, events, s', e);
  }

  lemma StepMeans(s: Encoder, events: seq<Event>, e: Event)
    requires Apart(s) && Means(s, events) && !e.IsTerminal()
    ensures Means(Step(s, e), events + [e])
  {
    match e {
      case ToolStart(_, _, _, _) => StartMeans(s, events, e);
      case ToolDelta(_, _, _, _) => DeltaMeans(s, events, e);
      case ToolDone(_, _, _, _, _) => DoneMeans(s, events, e);
      case TextDelta(_, _) => TextMeans(s, events, e);
      case RefusalDelta(_, _) => TextMeans(s, events, e);
      case ReasoningDelta(_, _, _) => ReasoningMeans(s, events, e);
      case _ => QuietMeans(s, events, e);
    }
  }

  /** After every stream that has not ended, the encoder holds its meaning. */
  lemma {:induction false} EncodeMeans(id: string, created: int, model: string, events: seq<Event>)
    requires NoTerminal(events)
    ensures Means(Encode(id, created, model, events), events)
  {
    if events != [] {
      var before, e := events[..|events| - 1], events[|events| - 1];
      assert events == before + [e];
      assert e in events && forall x <- before :: x in events;
      EncodeMeans(id, created, model, before);
      RunLive(id, created, model, before);
      LiveApart(Encode(id, created, model, before));
      StepMeans(Encode(id, created, model, before), before, e);
    }
  }
}
