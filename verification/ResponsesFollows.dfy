/** Along a run of the Responses encoder, what the reader of its frames knows
    (internal/stream_convert.go:85-330 against 1035-1167). The reader is followed frame by
    frame. */
module ResponsesFollows {
  import opened Canonical
  import opened ToolTracker
  import opened ResponsesFrames
  import opened ResponsesEncoderSpec
  import opened ResponsesGrammar
  import opened ResponsesMeaning
  import opened ResponsesReader
  import opened ResponsesItems
  import opened ResponsesIDs

  /** The last non-empty signature a stream carries. */
  function LastSignature(events: seq<Event>): string {
    if events == [] then "" else
      var e := events[|events| - 1];
      if e.ReasoningDelta? && e.signature != "" then e.signature else LastSignature(events[..|events| - 1])
  }

  // ----- What the reader knows of a running encoder -----

  ghost predicate SpeechFollows(s: Encoder, r: Reader) {
    && (r.textSeen <==> s.text != "" && !s.textRefusal)
    && (r.refusalSeen <==> s.text != "" && s.textRefusal)
    && TextOf(r.events) == (if s.textRefusal then "" else s.text)
    && RefusalOf(r.events) == (if s.textRefusal then s.text else "")
    && ReasoningOf(r.events) == s.reasoning
    && (s.reasoning != "" ==> r.reasoningSeen)
    && UsageOf(r.events) == NO_USAGE
    && (!s.reasoningOpen || s.reasoningSig == "" ==> LastSignature(r.events) == s.reasoningSig)
  }

  /** One call, as the encoder has it, as the tracker has it and as the events tell it:
      the id shown is the one it came with, or its item id if it came with none. */
  ghost predicate CallFollows(tool: EncoderTool, output: map<int, Item>, state: ToolState, call: Call, first: string) {
    && state.callID == FirstNonEmpty(first, tool.itemID) && state.callID != ""
    && (first != "" ==> tool.id == first) && state.done == tool.done
    && if tool.done
       then call == Closed(state.callID, state.name, state.arguments)
            && CallOf(tool, output).Closed? && (first != "" ==> CallOf(tool, output).id == first)
            && CallOf(tool, output) == call.(id := CallOf(tool, output).id)
       else call == Open(state.callID, state.name, tool.arguments) && state.arguments == tool.arguments
            && (state.name == tool.name || state.name == "")
  }

  ghost predicate CallsFollow(s: Encoder, r: Reader, known: Mentions) {
    OrderFollows(s, r, known) && EachFollows(s, r, known)
  }

  ghost predicate OrderFollows(s: Encoder, r: Reader, known: Mentions) {
    && |r.tools.order| == |known.order|
    && (forall k | 0 <= k < |known.order| ::
          known.order[k] in s.tools && r.tools.order[k] == s.tools[known.order[k]].outputIndex)
    && (forall i | i in s.tools :: i in known.order && i in known.first)
    && (forall j | j in r.tools.byIndex :: 0 <= j < s.nextIndex)
  }

  ghost predicate EachFollows(s: Encoder, r: Reader, known: Mentions) {
    forall i | i in s.tools :: i in known.first && ToolFollows(s, r, i, known.first[i])
  }

  ghost predicate ToolFollows(s: Encoder, r: Reader, i: int, first: string)
    requires i in s.tools
  {
    var j := s.tools[i].outputIndex;
    && j in r.tools.byIndex && j in Started(r.events) && s.tools[i].itemID == ToolItemID(s.id, i)
    && CallFollows(s.tools[i], s.output, r.tools.byIndex[j], CallAt(r.events, j), first)
  }

  /** Item `j` is that of the finished call `i`. */
  ghost predicate IsItemOf(s: Encoder, j: int, i: int) {
    i in s.tools && s.tools[i].done && s.tools[i].outputIndex == j && j in s.output && s.output[j].id == s.tools[i].itemID
  }

  /** The call items of the output are those of finished calls. */
  ghost predicate CallItemsFollow(s: Encoder) {
    forall j | j in s.output && s.output[j].kind == FunctionCall :: exists i :: IsItemOf(s, j, i)
  }

  /** The other items are reasoning, and the message that says what was said. */
  ghost predicate ItemsFollow(s: Encoder) {
    forall j | j in s.output ::
      match s.output[j].kind
      case Message => !s.textOpen && s.text != "" && s.output[j].content == [if s.textRefusal then Refusal(s.text) else OutputText(s.text)]
      case Reasoning => true
      case FunctionCall => true
      case OtherItem => false
  }

  /** Nothing about finished calls changes. */
  lemma CallItemsSame(s: Encoder, s': Encoder)
    requires CallItemsFollow(s)
    requires forall i | i in s.tools && s.tools[i].done ::
               i in s'.tools && s'.tools[i].done && s'.tools[i].outputIndex == s.tools[i].outputIndex && s'.tools[i].itemID == s.tools[i].itemID
    requires forall j | j in s'.output && s'.output[j].kind == FunctionCall :: j in s.output && s'.output[j] == s.output[j]
    ensures CallItemsFollow(s')
  {
    forall j | j in s'.output && s'.output[j].kind == FunctionCall ensures exists i :: IsItemOf(s', j, i) {
      var i :| IsItemOf(s, j, i);
      assert IsItemOf(s', j, i);
    }
  }

  ghost predicate Follows(s: Encoder, r: Reader, known: Mentions) {
    && r.status == Running && r.tools.Valid()
    && SpeechFollows(s, r) && CallsFollow(s, r, known) && ItemsFollow(s) && CallItemsFollow(s)
  }

  // ----- One frame more -----

  lemma ReadEmit(s: Encoder, b: Body)
    ensures Read(Emit(s, b).frames) == ReadFrame(Read(s.frames), b)
  {
    ReadSnoc(s.frames, Frame(s.sequence, b));
  }

  /** The reader passes over these frames. */
  predicate Inert(b: Body) {
    b.ContentPartAdded? || b.SummaryPartAdded? || b.OutputTextDone? || b.RefusalTextDone? || b.ContentPartDone?
    || b.SummaryTextDone? || b.SummaryPartDone? || (b.ItemAdded? && b.item.kind == Reasoning)
    || (b.ItemDone? && b.item.kind == Message)
  }

  lemma ReadInert(s: Encoder, b: Body)
    requires Inert(b)
    ensures Read(Emit(s, b).frames) == Read(s.frames)
  {
    hide Read, ReadFrame, Inert;
    ReadEmit(s, b);
    InertReads(Read(s.frames), b);
  }

  lemma InertReads(r: Reader, b: Body)
    requires Inert(b) && r.tools.Valid()
    ensures ReadFrame(r, b) == r
  {
    hide ReadTerminal, DeltaTool, DoneTool, StartTool, ReadReasoningDone;
  }

  lemma ReadClosing(s: Encoder, index: int, item: Item)
    requires Read(s.frames).status == Running
    ensures Read(Emit(s, ItemDone(index, item)).frames) == ReadItemDone(Read(s.frames), index, item, "")
  {
    hide Read, ReadItemDone;
    ReadEmit(s, ItemDone(index, item));
  }

  lemma SnocOther(events: seq<Event>, e: Event)
    requires !e.IsTool()
    ensures forall j :: CallAt(events + [e], j) == CallAt(events, j)
    ensures LastSignature(events + [e]) == if e.ReasoningDelta? && e.signature != "" then e.signature else LastSignature(events)
  {
    assert (events + [e])[..|events|] == events;
    forall j ensures CallAt(events + [e], j) == CallAt(events, j) {
      SnocCall(events, e, j);
    }
  }

  lemma SnocTool(events: seq<Event>, e: Event)
    requires e.IsTool()
    ensures forall j :: CallAt(events + [e], j) == if j == e.index then CallStep(CallAt(events, j), e) else CallAt(events, j)
    ensures LastSignature(events + [e]) == LastSignature(events)
  {
    assert (events + [e])[..|events|] == events;
    forall j ensures CallAt(events + [e], j) == if j == e.index then CallStep(CallAt(events, j), e) else CallAt(events, j) {
      SnocCall(events, e, j);
    }
  }

  /** `events'` is `events`, or one event more that is not about tools. */
  ghost predicate SameCalls(events: seq<Event>, events': seq<Event>) {
    && (forall j :: CallAt(events', j) == CallAt(events, j))
    && Started(events) <= Started(events')
  }

  lemma OtherSameCalls(events: seq<Event>, e: Event)
    requires !e.IsTool()
    ensures SameCalls(events, events + [e])
  {
    Snoc(events, e);
    SnocOther(events, e);
  }

  /** Frames that are not about calls leave the calls as they were. */
  lemma CallsUnmoved(s: Encoder, r: Reader, s': Encoder, r': Reader, known: Mentions)
    requires CallsFollow(s, r, known) && s'.id == s.id && s'.tools == s.tools && s.nextIndex <= s'.nextIndex
    requires forall i | i in s.tools && s.tools[i].done :: CallOf(s.tools[i], s'.output) == CallOf(s.tools[i], s.output)
    requires r'.tools == r.tools && SameCalls(r.events, r'.events)
    requires CallItemsFollow(s)
    requires forall j | j in s'.output && s'.output[j].kind == FunctionCall :: j in s.output && s'.output[j] == s.output[j]
    ensures CallsFollow(s', r', known) && CallItemsFollow(s')
  {
    hide CallAt, Started, CallFollows, CallOf, ToolItemID, CallItemsFollow;
    CallItemsSame(s, s');
    forall i | i in s.tools ensures i in known.first && ToolFollows(s', r', i, known.first[i]) {
      assert ToolFollows(s, r, i, known.first[i]);
      var j := s.tools[i].outputIndex;
      SameCallFollows(s.tools[i], s.output, s'.output, r.tools.byIndex[j], CallAt(r.events, j), known.first[i]);
    }
  }

  // ----- Reasoning -----

  lemma ReasoningDoneReads(r: Reader, index: int, id: string, text: string, signature: string)
    requires r.tools.Valid() && (text != "" ==> r.reasoningSeen)
    ensures var r' := ReadReasoningDone(r, index, ReasoningItem(id, "completed", [SummaryText(text)], signature));
            && (r.reasoningSeen ==> r'.reasoningSeen)
            && r' == r.(reasoningSeen := r'.reasoningSeen,
                        events := if signature != "" then r.events + [ReasoningDelta(index, "", signature)] else r.events)
  {
    var summary := [SummaryText(text)];
    assert summary[..0] == [];
    assert Pieces(summary, SummaryPiece) == text;
    assert Pieces([], ReasoningPiece) == "";
  }

  lemma CloseReasoningFollows(s: Encoder, known: Mentions)
    requires Apart(s) && Follows(s, Read(s.frames), known)
    ensures Follows(CloseReasoning(s), Read(CloseReasoning(s).frames), known)
  {
    hide Read, ReadFrame, ReadReasoningDone;
    if s.reasoningOpen {
      var itemID, part := s.id + "_reasoning", SummaryText(s.reasoning);
      var item := ReasoningItem(itemID, "completed", [part], s.reasoningSig);
      var said := Emit(s, SummaryTextDone(itemID, s.reasoningIndex, s.reasoning));
      var parted := Emit(said, SummaryPartDone(itemID, s.reasoningIndex, part));
      ReadInert(s, SummaryTextDone(itemID, s.reasoningIndex, s.reasoning));
      ReadInert(said, SummaryPartDone(itemID, s.reasoningIndex, part));
      ReadClosing(parted.(output := s.output[s.reasoningIndex := item]), s.reasoningIndex, item);
      ClosedReasoningFollows(s, Read(s.frames), CloseReasoning(s), Read(CloseReasoning(s).frames), item, known);
    }
  }

  lemma ClosedReasoningFollows(s: Encoder, r: Reader, s': Encoder, r': Reader, item: Item, known: Mentions)
    requires Apart(s) && s.reasoningOpen && Follows(s, r, known)
    requires item == ReasoningItem(s.id + "_reasoning", "completed", [SummaryText(s.reasoning)], s.reasoningSig)
    requires s' == s.(output := s.output[s.reasoningIndex := item], reasoningOpen := false, frames := s'.frames, sequence := s'.sequence)
    requires r' == ReadReasoningDone(r, s.reasoningIndex, item)
    ensures Follows(s', r', known)
  {
    hide CallAt, TextOf, RefusalOf, ReasoningOf, UsageOf, LastSignature, Started, ToolOrder, SignatureOf, CallsFollow, CallFollows, CallItemsFollow, ReadReasoningDone;
    ReasoningDoneReads(r, s.reasoningIndex, s.id + "_reasoning", s.reasoning, s.reasoningSig);
    var e := ReasoningDelta(s.reasoningIndex, "", s.reasoningSig);
    Snoc(r.events, e);
    SnocOther(r.events, e);
    CallsUnmoved(s, r, s', r', known);
  }

  lemma EnsureReasoningFollows(s: Encoder, known: Mentions)
    requires Follows(s, Read(s.frames), known)
    ensures Follows(EnsureReasoning(s), Read(EnsureReasoning(s).frames), known)
    ensures EnsureReasoning(s).reasoningOpen
  {
    hide Read, ReadFrame, CallAt, TextOf, RefusalOf, ReasoningOf, UsageOf, LastSignature, Started, ToolOrder, CallsFollow, CallItemsFollow;
    if !s.reasoningOpen {
      var opened' := s.(reasoningIndex := s.nextIndex, nextIndex := s.nextIndex + 1, reasoningOpen := true);
      var item := ReasoningItem(s.id + "_reasoning", "in_progress", [], "");
      ReadInert(opened', ItemAdded(s.nextIndex, item));
      ReadInert(Emit(opened', ItemAdded(s.nextIndex, item)), SummaryPartAdded(s.id + "_reasoning", s.nextIndex, SummaryText("")));
      CallsUnmoved(s, Read(s.frames), EnsureReasoning(s), Read(s.frames), known);
    }
  }

  lemma ReasoningDeltaFollows(s: Encoder, delta: string, known: Mentions)
    requires Apart(s) && Follows(s, Read(s.frames), known) && s.reasoningOpen && delta != ""
    ensures var s' := Emit(s.(reasoning := s.reasoning + delta), SummaryTextDelta(s.id + "_reasoning", s.reasoningIndex, delta));
            Follows(s', Read(s'.frames), known)
  {
    hide Read, CallAt, TextOf, RefusalOf, ReasoningOf, UsageOf, LastSignature, Started, ToolOrder, SignatureOf, CallsFollow, CallFollows, CallItemsFollow;
    var r := Read(s.frames);
    var s' := Emit(s.(reasoning := s.reasoning + delta), SummaryTextDelta(s.id + "_reasoning", s.reasoningIndex, delta));
    ReadEmit(s, SummaryTextDelta(s.id + "_reasoning", s.reasoningIndex, delta));
    var e := ReasoningDelta(s.reasoningIndex, delta, "");
    Snoc(r.events, e);
    SnocOther(r.events, e);
    OtherSameCalls(r.events, e);
    CallsUnmoved(s, r, s', Read(s'.frames), known);
  }

  lemma SignatureFollows(s: Encoder, r: Reader, signature: string, known: Mentions)
    requires Follows(s, r, known) && s.reasoningOpen && signature != ""
    ensures Follows(s.(reasoningSig := s.reasoningSig + signature), r, known)
  {
    hide CallAt, TextOf, RefusalOf, ReasoningOf, UsageOf, LastSignature, Started, CallFollows, CallItemsFollow, CallsFollow;
    CallsUnmoved(s, r, s.(reasoningSig := s.reasoningSig + signature), r, known);
  }

  lemma WriteReasoningFollows(s: Encoder, delta: string, signature: string, known: Mentions)
    requires Apart(s) && Follows(s, Read(s.frames), known)
    ensures var s' := WriteReasoningDelta(s, delta, signature); Follows(s', Read(s'.frames), known)
  {
    hide Read, Follows;
    if delta != "" || signature != "" {
      EnsureReasoningFollows(s, known);
      var ready := EnsureReasoning(s);
      var said := WriteReasoningDelta(s, delta, "");
      if delta != "" {
        ReasoningDeltaFollows(ready, delta, known);
      } else {
        said := ready;
      }
      if signature != "" {
        SignatureFollows(said, Read(said.frames), signature, known);
      }
    }
  }

  // ----- Text -----

  lemma EnsureTextFollows(s: Encoder, refusal: bool, known: Mentions)
    requires Apart(s) && Follows(s, Read(s.frames), known) && !s.textOpen
    ensures Follows(EnsureText(s, refusal), Read(EnsureText(s, refusal).frames), known)
  {
    hide Read, Follows;
    CloseReasoningEffect(s);
    CloseReasoningFollows(s, known);
    OpenTextFollows(CloseReasoning(s), refusal, known);
  }

  lemma OpenTextFollows(s: Encoder, refusal: bool, known: Mentions)
    requires Apart(s) && Follows(s, Read(s.frames), known) && !s.textOpen && !s.reasoningOpen
    ensures Follows(EnsureText(s, refusal), Read(EnsureText(s, refusal).frames), known)
  {
    hide Read, CallAt, TextOf, RefusalOf, ReasoningOf, UsageOf, LastSignature, Started, ToolOrder, SignatureOf, CallFollows, CallItemsFollow, CallsFollow;
    var n, r := s.nextIndex, Read(s.frames);
    var ready := s.(textIndex := n, nextIndex := n + 1, textOpen := true, textRefusal := refusal);
    var item := MessageItem(s.id + "_msg", "in_progress", []);
    ReadEmit(ready, ItemAdded(n, item));
    ReadInert(Emit(ready, ItemAdded(n, item)), ContentPartAdded(s.id + "_msg", n, if refusal then Refusal("") else OutputText("")));
    var e := MessageStart(n, "assistant");
    Snoc(r.events, e);
    SnocOther(r.events, e);
    OtherSameCalls(r.events, e);
    CallsUnmoved(s, r, EnsureText(s, refusal), Read(EnsureText(s, refusal).frames), known);
  }

  lemma SayFollows(s: Encoder, delta: string, known: Mentions)
    requires Follows(s, Read(s.frames), known) && s.textOpen && delta != ""
    ensures var s' := WriteTextDelta(s, delta, s.textRefusal); Follows(s', Read(s'.frames), known)
  {
    hide Read, CallAt, TextOf, RefusalOf, ReasoningOf, UsageOf, LastSignature, Started, ToolOrder, SignatureOf, CallFollows, CallItemsFollow, CallsFollow;
    var r := Read(s.frames);
    var said := s.(text := s.text + delta);
    var b := if s.textRefusal then RefusalTextDelta(s.id + "_msg", s.textIndex, delta)
             else OutputTextDelta(s.id + "_msg", s.textIndex, delta);
    var e := if s.textRefusal then RefusalDelta(s.textIndex, delta) else TextDelta(s.textIndex, delta);
    ReadEmit(said, b);
    Snoc(r.events, e);
    SnocOther(r.events, e);
    OtherSameCalls(r.events, e);
    CallsUnmoved(s, r, Emit(said, b), Read(Emit(said, b).frames), known);
  }

  lemma WriteTextFollows(s: Encoder, delta: string, refusal: bool, known: Mentions)
    requires Apart(s) && Follows(s, Read(s.frames), known)
    ensures var s' := WriteTextDelta(s, delta, refusal); Follows(s', Read(s'.frames), known)
  {
    hide Read, Follows;
    if delta != "" {
      if !s.textOpen {
        EnsureTextFollows(s, refusal, known);
      }
      SayFollows(EnsureText(s, refusal), delta, known);
    }
  }

  // ----- Calls -----

  /** One tool event at output index `j`, which belongs to tool `index` only. */
  ghost predicate Moved(s: Encoder, r: Reader, s': Encoder, r': Reader, index: int, j: int, e: Event) {
    && e.IsTool() && e.index == j && s'.id == s.id
    && index in s'.tools && s'.tools == s.tools[index := s'.tools[index]] && j == s'.tools[index].outputIndex
    && s'.tools[index].itemID == ToolItemID(s.id, index)
    && s.nextIndex <= s'.nextIndex
    && (if index in s.tools then s.tools[index].outputIndex == j else e.ToolStart? && j == s.nextIndex < s'.nextIndex)
    && r'.events == r.events + [e]
    && j in r'.tools.byIndex && r'.tools.byIndex == r.tools.byIndex[j := r'.tools.byIndex[j]]
    && r'.tools.order == if j in r.tools.byIndex then r.tools.order else r.tools.order + [j]
  }

  lemma OrderMoved(s: Encoder, r: Reader, s': Encoder, r': Reader, known: Mentions, known': Mentions, index: int, j: int, e: Event)
    requires CallsFollow(s, r, known) && Unmixed(s) && Moved(s, r, s', r', index, j, e)
    requires if index in s.tools then known' == known else index in known'.first && known' == known.With(index, known'.first[index])
    ensures OrderFollows(s', r', known')
  {
    hide CallAt, Started, CallFollows, ToolItemID, CallOf;
    if index in s.tools {
      assert ToolFollows(s, r, index, known.first[index]);
    }
  }

  lemma EachMoved(s: Encoder, r: Reader, s': Encoder, r': Reader, known: Mentions, known': Mentions, index: int, j: int, e: Event)
    requires CallsFollow(s, r, known) && Unmixed(s) && Moved(s, r, s', r', index, j, e)
    requires if index in s.tools then known' == known else index in known'.first && known' == known.With(index, known'.first[index])
    requires forall i | i in s.tools && i != index && s.tools[i].done :: CallOf(s.tools[i], s'.output) == CallOf(s.tools[i], s.output)
    requires CallFollows(s'.tools[index], s'.output, r'.tools.byIndex[j], CallStep(CallAt(r.events, j), e), known'.first[index])
    ensures EachFollows(s', r', known')
  {
    hide CallAt, Started, CallFollows, CallStep, ToolItemID, CallOf, OrderFollows;
    Snoc(r.events, e);
    SnocTool(r.events, e);
    forall i | i in s'.tools ensures i in known'.first && ToolFollows(s', r', i, known'.first[i]) {
      if i != index {
        assert i in s.tools && ToolFollows(s, r, i, known.first[i]);
        SameCallFollows(s.tools[i], s.output, s'.output, r.tools.byIndex[s.tools[i].outputIndex],
                        CallAt(r.events, s.tools[i].outputIndex), known.first[i]);
      } else if index in s.tools {
        assert ToolFollows(s, r, index, known.first[index]);
      }
    }
  }

  /** Only the call at `index`, not done before, may have a new item. */
  ghost predicate OutputMoved(s: Encoder, s': Encoder, index: int) {
    && (index in s.tools ==> !s.tools[index].done)
    && (forall j | j in s'.output ::
          (j in s.output && s'.output[j] == s.output[j]) || (s'.output[j].kind == FunctionCall && IsItemOf(s', j, index)))
  }

  lemma ItemsMoved(s: Encoder, r: Reader, s': Encoder, r': Reader, index: int, j: int, e: Event)
    requires ItemsFollow(s) && CallItemsFollow(s) && Moved(s, r, s', r', index, j, e) && OutputMoved(s, s', index)
    requires SameSpeech(s, s') && s'.textOpen == s.textOpen
    ensures ItemsFollow(s') && CallItemsFollow(s')
  {
    hide ToolItemID;
    forall k | k in s'.output && s'.output[k].kind == FunctionCall ensures exists i :: IsItemOf(s', k, i) {
      if !IsItemOf(s', k, index) {
        var i :| IsItemOf(s, k, i);
        assert IsItemOf(s', k, i);
      }
    }
  }

  /** After one tool event the reader has caught up again. */
  lemma ToolMoved(s: Encoder, r: Reader, s': Encoder, r': Reader, known: Mentions, known': Mentions, index: int, j: int, e: Event)
    requires Follows(s, r, known) && Unmixed(s) && Moved(s, r, s', r', index, j, e) && OutputMoved(s, s', index)
    requires SameSpeech(s, s') && s'.textOpen == s.textOpen && s'.reasoningOpen == s.reasoningOpen
    requires r' == r.(tools := r'.tools, events := r'.events) && r'.tools.Valid()
    requires if index in s.tools then known' == known else index in known'.first && known' == known.With(index, known'.first[index])
    requires forall i | i in s.tools && i != index && s.tools[i].done :: CallOf(s.tools[i], s'.output) == CallOf(s.tools[i], s.output)
    requires CallFollows(s'.tools[index], s'.output, r'.tools.byIndex[j], CallStep(CallAt(r.events, j), e), known'.first[index])
    ensures Follows(s', r', known')
  {
    hide CallAt, CallFollows, CallStep, CallOf, SpeechFollows, OrderFollows, EachFollows, ItemsFollow, CallItemsFollow, OutputMoved, ToolItemID;
    OrderMoved(s, r, s', r', known, known', index, j, e);
    EachMoved(s, r, s', r', known, known', index, j, e);
    ItemsMoved(s, r, s', r', index, j, e);
    SpeechUnmoved(s, r, s', r', e);
  }

  /** The call at `index`, as the reader has it. */
  lemma CallKnown(s: Encoder, r: Reader, known: Mentions, index: int)
    requires CallsFollow(s, r, known) && index in s.tools
    ensures index in known.first && ToolFollows(s, r, index, known.first[index])
  {}

  lemma SameCallFollows(tool: EncoderTool, output: map<int, Item>, output': map<int, Item>, state: ToolState, call: Call, first: string)
    requires CallFollows(tool, output, state, call, first)
    requires tool.done ==> CallOf(tool, output') == CallOf(tool, output)
    ensures CallFollows(tool, output', state, call, first)
  {}

  /** A tool event says nothing. */
  lemma SpeechUnmoved(s: Encoder, r: Reader, s': Encoder, r': Reader, e: Event)
    requires SpeechFollows(s, r) && e.IsTool() && r'.events == r.events + [e]
    requires SameSpeech(s, s') && s'.reasoningOpen == s.reasoningOpen
    requires r'.textSeen == r.textSeen && r'.refusalSeen == r.refusalSeen && r'.reasoningSeen == r.reasoningSeen
    ensures SpeechFollows(s', r')
  {
    hide TextOf, RefusalOf, ReasoningOf, UsageOf, LastSignature, SignatureOf;
    Snoc(r.events, e);
    SnocTool(r.events, e);
  }

  /** An index the tracker has not seen has no events. */
  lemma FreshCall(r: Reader, j: int)
    requires ReaderTracks(r) && j !in r.tools.byIndex
    ensures CallAt(r.events, j).Unseen?
  {
    OrderMatchesMap(r.tools, r.events);
    ToolOrderIsSeen(r.events);
  }

  lemma StartReads(r: Reader, j: int, item: Item)
    requires r.status == Running && r.tools.Valid() && j !in r.tools.byIndex
    requires item.kind == FunctionCall
    ensures var shown := FirstNonEmpty(item.callID, item.id);
            ReadFrame(r, ItemAdded(j, item)) ==
            r.(tools := Tracker(r.tools.byIndex[j := ToolState(shown, item.name, "", "", false)], r.tools.order + [j]),
               events := r.events + [ToolStart(j, shown, item.name, "")])
  {}

  lemma ItemIDIsSolid(id: string, index: int)
    ensures ToolItemID(id, index) != "" && !IsBlank(ToolItemID(id, index))
  {
    var itemID := ToolItemID(id, index);
    assert itemID[|id|] == '_' && itemID[|id|] in itemID;
  }

  lemma StartFollows(s: Encoder, index: int, callID: string, name: string, signature: string, known: Mentions)
    requires Apart(s) && Follows(s, Read(s.frames), known) && index !in s.tools && !s.reasoningOpen
    ensures var s' := WriteToolStart(s, index, callID, name, signature);
            Follows(s', Read(s'.frames), known.With(index, callID))
  {
    hide Read, ReadFrame, CallAt, TextOf, RefusalOf, ReasoningOf, UsageOf, LastSignature, Started, ToolOrder, SignatureOf, Tracks, SpeechFollows, CallOf, EachFollows, ItemsFollow, CallItemsFollow, ToolItemID;
    ItemIDIsSolid(s.id, index);
    var r, j := Read(s.frames), s.nextIndex;
    var s' := WriteToolStart(s, index, callID, name, signature);
    var item := CallItem(s'.tools[index].itemID, "in_progress", callID, name, "");
    ReadEmit(s.(nextIndex := j + 1, tools := s'.tools), ItemAdded(j, item));
    StartReads(r, j, item);
    var r', e := Read(s'.frames), ToolStart(j, FirstNonEmpty(callID, item.id), name, "");
    ReadTracks(s.frames);
    FreshCall(r, j);
    ToolMoved(s, r, s', r', known, known.With(index, callID), index, j, e);
  }

  lemma WriteToolStartFollows(s: Encoder, index: int, callID: string, name: string, signature: string, known: Mentions)
    requires Apart(s) && Follows(s, Read(s.frames), known)
    ensures var s' := WriteToolStart(s, index, callID, name, signature);
            Follows(s', Read(s'.frames), if index in s.tools then known else known.With(index, callID))
  {
    hide Read, Follows;
    if index in s.tools {
      RenamedFollows(s, Read(s.frames), WriteToolStart(s, index, callID, name, signature), index, known);
    } else {
      CloseReasoningEffect(s);
      CloseReasoningFollows(s, known);
      StartFollows(CloseReasoning(s), index, callID, name, signature, known);
    }
  }

  /** A second Start may only name a tool that has no name yet. */
  lemma RenamedFollows(s: Encoder, r: Reader, s': Encoder, index: int, known: Mentions)
    requires Follows(s, r, known) && Renamed(s, s', index)
    ensures Follows(s', r, known)
  {
    hide CallAt, TextOf, RefusalOf, ReasoningOf, UsageOf, LastSignature, Started, CallItemsFollow, ToolItemID, ToolFollows;
    CallItemsSame(s, s');
    forall i | i in s.tools ensures i in known.first && ToolFollows(s', r, i, known.first[i]) {
      assert ToolFollows(s, r, i, known.first[i]);
      RenamedTool(s, r, s', index, i, known.first[i]);
    }
  }

  ghost predicate Renamed(s: Encoder, s': Encoder, index: int) {
    && index in s.tools && index in s'.tools
    && var tool, tool' := s.tools[index], s'.tools[index];
    && s' == s.(tools := s.tools[index := tool'])
    && tool' == tool.(id := tool'.id, name := tool'.name, signature := tool'.signature)
    && (tool.id != "" ==> tool'.id == tool.id) && (tool.name != "" ==> tool'.name == tool.name)
  }

  lemma RenamedTool(s: Encoder, r: Reader, s': Encoder, index: int, i: int, first: string)
    requires Renamed(s, s', index) && i in s.tools && ToolFollows(s, r, i, first)
    ensures ToolFollows(s', r, i, first)
  {
    hide CallAt, Started, ToolItemID;
  }

  lemma DeltaReads(r: Reader, j: int, itemID: string, delta: string)
    requires r.status == Running && r.tools.Valid() && j in r.tools.byIndex && r.tools.byIndex[j].callID != ""
    ensures var state := r.tools.byIndex[j];
            ReadFrame(r, ArgumentsDelta(itemID, j, delta)) ==
            r.(tools := Tracker(r.tools.byIndex[j := state.(arguments := state.arguments + delta)], r.tools.order),
               events := r.events + [ToolDelta(j, state.callID, state.name, delta)])
  {}

  lemma DeltaFollows(s: Encoder, index: int, callID: string, name: string, delta: string, known: Mentions)
    requires Apart(s) && Follows(s, Read(s.frames), known) && index in s.tools
    ensures var s' := WriteToolDelta(s, index, callID, name, delta); Follows(s', Read(s'.frames), known)
  {
    hide Read, ReadFrame, CallAt, TextOf, RefusalOf, ReasoningOf, UsageOf, LastSignature, Started, ToolOrder, SignatureOf, EachFollows, OrderFollows, SpeechFollows, ItemsFollow, CallItemsFollow, ToolItemID;
    var s' := WriteToolDelta(s, index, callID, name, delta);
    var tool, r := s.tools[index], Read(s.frames);
    CallKnown(s, r, known, index);
    if !tool.done && delta != "" {
      var j := tool.outputIndex;
      var state := r.tools.byIndex[j];
      ReadEmit(s.(tools := s'.tools), ArgumentsDelta(tool.itemID, j, delta));
      DeltaReads(r, j, tool.itemID, delta);
      var r', e := Read(s'.frames), ToolDelta(j, state.callID, state.name, delta);
      ToolMoved(s, r, s', r', known, known, index, j, e);
    }
  }

  lemma DoneReads(r: Reader, j: int, itemID: string, name: string, arguments: string)
    requires r.status == Running && r.tools.Valid() && j in r.tools.byIndex
    requires r.tools.byIndex[j].callID != "" && !r.tools.byIndex[j].done
    ensures var state := r.tools.byIndex[j];
            var state' := ToolState(state.callID, FirstNonEmpty(state.name, name), state.signature, FirstNonEmpty(arguments, state.arguments), true);
            ReadFrame(r, ArgumentsDone(itemID, j, name, arguments)) ==
            r.(tools := Tracker(r.tools.byIndex[j := state'], r.tools.order),
               events := r.events + [ToolDone(j, state'.callID, state'.name, state'.arguments, state'.signature)])
  {}

  /** Once done, the finished item tells the tracker nothing new. */
  lemma DoneAgainReads(r: Reader, j: int, item: Item)
    requires r.status == Running && r.tools.Valid() && j in r.tools.byIndex && item.kind == FunctionCall
    requires var state := r.tools.byIndex[j]; state.done && state.callID != "" && (state.name == "" ==> item.name == "")
    ensures ReadFrame(r, ItemDone(j, item)) == r
  {
    assert r.tools.byIndex[j := r.tools.byIndex[j]] == r.tools.byIndex;
  }

  lemma DoneFollows(s: Encoder, index: int, callID: string, name: string, arguments: string, signature: string, known: Mentions)
    requires Unmixed(s) && Follows(s, Read(s.frames), known) && index in s.tools
    ensures var s' := WriteToolDone(s, index, callID, name, arguments, signature); Follows(s', Read(s'.frames), known)
  {
    hide Read, ReadFrame, CallAt, TextOf, RefusalOf, ReasoningOf, UsageOf, LastSignature, Started, ToolOrder, SignatureOf, EachFollows, OrderFollows, SpeechFollows, ItemsFollow, CallItemsFollow, ToolItemID;
    var s' := WriteToolDone(s, index, callID, name, arguments, signature);
    var tool, r := s.tools[index], Read(s.frames);
    CallKnown(s, r, known, index);
    if !tool.done {
      var j, tool' := tool.outputIndex, s'.tools[index];
      var state := r.tools.byIndex[j];
      var argued := Emit(s.(tools := s'.tools), ArgumentsDone(tool'.itemID, j, tool'.name, tool'.arguments));
      ReadEmit(s.(tools := s'.tools), ArgumentsDone(tool'.itemID, j, tool'.name, tool'.arguments));
      DoneReads(r, j, tool'.itemID, tool'.name, tool'.arguments);
      var r' := Read(argued.frames);
      ReadEmit(argued.(output := s'.output), ItemDone(j, s'.output[j]));
      DoneAgainReads(r', j, s'.output[j]);
      var e := ToolDone(j, state.callID, r'.tools.byIndex[j].name, r'.tools.byIndex[j].arguments, state.signature);
      ToolMoved(s, r, s', r', known, known, index, j, e);
    }
  }

  lemma EnsureToolFollows(s: Encoder, index: int, callID: string, name: string, signature: string, known: Mentions)
    requires Apart(s) && Follows(s, Read(s.frames), known)
    ensures var s' := EnsureTool(s, index, callID, name, signature);
            Apart(s') && Follows(s', Read(s'.frames), if index in s.tools then known else known.With(index, callID))
  {
    hide Read, Follows;
    if index !in s.tools {
      WriteToolStartFollows(s, index, callID, name, signature, known);
      StartEffect(s, index, callID, name, signature);
    }
  }

  // ----- A run -----

  lemma StepFollows(s: Encoder, events: seq<Event>, e: Event)
    requires Apart(s) && ToolsMean(s, events) && Follows(s, Read(s.frames), MentionsOf(events)) && !e.IsTerminal()
    ensures Follows(Step(s, e), Read(Step(s, e).frames), MentionsOf(events + [e]))
  {
    hide Read, Follows, ToolOrder, MentionsOf;
    SnocMentions(events, e);
    ToolOrderIsSeen(events);
    var known := MentionsOf(events);
    if e.IsTool() {
      ToolStepFollows(s, e, known);
    } else {
      OtherStepFollows(s, e, known);
    }
  }

  lemma ToolStepFollows(s: Encoder, e: Event, known: Mentions)
    requires Apart(s) && Follows(s, Read(s.frames), known) && e.IsTool()
    ensures Follows(Step(s, e), Read(Step(s, e).frames), if e.index in s.tools then known else known.With(e.index, e.callID))
  {
    hide Read, Follows, WriteToolStart, Mentions.With;
    var known' := if e.index in s.tools then known else known.With(e.index, e.callID);
    match e
    case ToolStart(index, callID, name, signature) => WriteToolStartFollows(s, index, callID, name, signature, known);
    case ToolDelta(index, callID, name, delta) =>
      EnsureToolFollows(s, index, callID, name, "", known);
      DeltaFollows(EnsureTool(s, index, callID, name, ""), index, callID, name, delta, known');
    case ToolDone(index, callID, name, arguments, signature) =>
      EnsureToolFollows(s, index, callID, name, signature, known);
      DoneFollows(EnsureTool(s, index, callID, name, signature), index, callID, name, arguments, signature, known');
  }

  lemma OtherStepFollows(s: Encoder, e: Event, known: Mentions)
    requires Apart(s) && Follows(s, Read(s.frames), known) && !e.IsTool() && !e.IsTerminal()
    ensures Follows(Step(s, e), Read(Step(s, e).frames), known)
  {
    hide Read;
    match e
    case TextDelta(_, delta) => WriteTextFollows(s, delta, false, known);
    case RefusalDelta(_, delta) => WriteTextFollows(s, delta, true, known);
    case ReasoningDelta(_, delta, signature) => WriteReasoningFollows(s, delta, signature, known);
    case UsageReport(usage) => RecountedFollows(s, usage, Read(s.frames), known);
    case _ =>
  }

  lemma RecountedFollows(s: Encoder, usage: Usage, r: Reader, known: Mentions)
    requires Follows(s, r, known)
    ensures Follows(s.(usage := usage), r, known)
  {
    hide CallAt, TextOf, RefusalOf, ReasoningOf, UsageOf, LastSignature, Started, CallsFollow, CallItemsFollow;
    CallsUnmoved(s, r, s.(usage := usage), r, known);
  }

  lemma InitFollows(id: string, created: int, model: string)
    ensures Follows(Init(id, created, model), Read(Init(id, created, model).frames), MentionsOf([]))
  {
    var blank := Encoder(id, created, model, 0, 0, "", -1, false, false, "", "", -1, false, map[], map[], NO_USAGE, false, []);
    var b := Created(Response(id, created, model, "in_progress", None, [], NO_USAGE));
    ReadEmit(blank, b);
    Snoc([], ResponseStart(id, created, model));
    SnocOther([], ResponseStart(id, created, model));
  }

  /** Wherever a run of the encoder stands, the reader of its frames has caught up. */
  lemma {:induction false} EncodeFollows(id: string, created: int, model: string, events: seq<Event>)
    requires NoTerminal(events)
    ensures var s := Encode(id, created, model, events); Follows(s, Read(s.frames), MentionsOf(events))
  {
    hide Follows, Read, Step, Live, MentionsOf;
    if events == [] {
      InitFollows(id, created, model);
    } else {
      var before, e := events[..|events| - 1], events[|events| - 1];
      assert events == before + [e];
      assert e in events && forall x <- before :: x in events;
      EncodeFollows(id, created, model, before);
      EncodeMeans(id, created, model, before);
      RunLive(id, created, model, before);
      var s := Encode(id, created, model, before);
      LiveApart(s);
      StepFollows(s, before, e);
    }
  }
}
