/** Reading back what the Anthropic encoder writes gives the content it was given, in
    the same order: internal/stream_convert.go:501-768 against 1249-1407. */
module AnthropicRoundTrip {
  import opened Canonical
  import opened ToolTracker
  import opened AnthropicFrames
  import opened AnthropicEncoderSpec
  import opened AnthropicReader

  // ----- The content of a stream, in order -----

  datatype Piece = Said(text: string) | Thought(text: string) | Called(id: string, name: string, arguments: string)

  /** What the last Start at index `i`, and the fragments since, say about the call. */
  function PendingAt(events: seq<Event>, i: int): PendingTool {
    if events == [] then PendingTool("", "", "") else
      var e := events[|events| - 1];
      var before := PendingAt(events[..|events| - 1], i);
      if e.ToolStart? && e.index == i then PendingTool(e.callID, e.name, "")
      else if e.ToolDelta? && e.index == i then before.(arguments := before.arguments + e.delta)
      else before
  }

  function CallAtDone(pending: PendingTool, e: Event): Piece
    requires e.ToolDone?
  {
    Called(FirstNonEmpty(pending.id, e.callID), FirstNonEmpty(pending.name, e.name), FirstNonEmpty(e.arguments, pending.arguments))
  }

  /** Non-empty text and reasoning deltas and finished calls, interleaved as in the stream.
      With `startedOnly`, a Done counts only after a Start of its index. */
  function ContentOf(events: seq<Event>, startedOnly: bool): seq<Piece> {
    if events == [] then [] else
      var before := events[..|events| - 1];
      ContentOf(before, startedOnly) + PieceAt(before, events[|events| - 1], startedOnly)
  }

  function PieceAt(before: seq<Event>, e: Event, startedOnly: bool): seq<Piece> {
    if e.TextDelta? && e.delta != "" then [Said(e.delta)]
    else if e.ReasoningDelta? && e.delta != "" then [Thought(e.delta)]
    else if e.ToolDone? && (startedOnly ==> e.index in Started(before)) then [CallAtDone(PendingAt(before, e.index), e)]
    else []
  }

  ghost predicate NoDone(events: seq<Event>, i: int) {
    forall p | 0 <= p < |events| :: !(events[p].ToolDone? && events[p].index == i)
  }

  ghost predicate DoneAtMostOnce(events: seq<Event>) {
    forall p | 0 <= p < |events| && events[p].ToolDone? :: NoDone(events[..p], events[p].index)
  }

  lemma SnocContent(events: seq<Event>, e: Event)
    ensures forall started :: ContentOf(events + [e], started) == ContentOf(events, started) + PieceAt(events, e, started)
    ensures forall i :: PendingAt(events + [e], i) ==
                        if e.ToolStart? && e.index == i then PendingTool(e.callID, e.name, "")
                        else if e.ToolDelta? && e.index == i
                        then PendingAt(events, i).(arguments := PendingAt(events, i).arguments + e.delta)
                        else PendingAt(events, i)
  {
    assert (events + [e])[..|events|] == events;
  }

  lemma {:induction false} UnseenPending(events: seq<Event>, i: int)
    requires CallAt(events, i).Unseen?
    ensures PendingAt(events, i) == PendingTool("", "", "")
  {
    if events != [] {
      var before, e := events[..|events| - 1], events[|events| - 1];
      UnseenPending(before, i);
    }
  }

  // ----- What the encoder holds -----

  ghost predicate Holds(s: Encoder, events: seq<Event>) {
    && s.refusal == RefusalOf(events) && s.usage == UsageOf(events)
    && forall i :: NoDone(events, i) ==> ToolAt(s, i) == PendingAt(events, i)
  }

  lemma StepTools(s: Encoder, e: Event)
    requires !s.finished && !e.IsTerminal()
    ensures var s' := Step(s, e);
            && s'.refusal == (if e.RefusalDelta? then s.refusal + e.delta else s.refusal)
            && s'.usage == (if e.UsageReport? then e.usage else s.usage)
            && (!e.IsTool() ==> s'.tools == s.tools)
            && (e.IsTool() ==> e.index in s'.tools && s'.tools == s.tools[e.index := s'.tools[e.index]])
            && (e.ToolStart? ==> s'.tools[e.index] == PendingTool(e.callID, e.name, ""))
            && (e.ToolDelta? ==> s'.tools[e.index] == ToolAt(s, e.index).(arguments := ToolAt(s, e.index).arguments + e.delta))
  {
    hide WriteTextDelta, WriteReasoningDelta, WriteToolDone;
    if e.TextDelta? {
      TextKeepsTools(s, e.delta);
    } else if e.ReasoningDelta? {
      ReasoningKeepsTools(s, e.delta, e.signature);
    } else if e.ToolDone? {
      DoneKeepsTools(s, e.index, e.callID, e.name, e.arguments);
    }
  }

  lemma TextKeepsTools(s: Encoder, delta: string)
    ensures var s' := WriteTextDelta(s, delta); s'.tools == s.tools && s'.usage == s.usage && s'.refusal == s.refusal
  {}

  lemma ReasoningKeepsTools(s: Encoder, delta: string, signature: string)
    ensures var s' := WriteReasoningDelta(s, delta, signature); s'.tools == s.tools && s'.usage == s.usage && s'.refusal == s.refusal
  {}

  lemma DoneKeepsTools(s: Encoder, index: int, callID: string, name: string, arguments: string)
    ensures var s' := WriteToolDone(s, index, callID, name, arguments);
            index in s'.tools && s'.tools == s.tools[index := s'.tools[index]] && s'.usage == s.usage && s'.refusal == s.refusal
  {}

  lemma StepHolds(s: Encoder, events: seq<Event>, e: Event)
    requires !s.finished && Holds(s, events) && !e.IsTerminal()
    ensures Holds(Step(s, e), events + [e])
  {
    hide PendingAt, RefusalOf, UsageOf, Step, ContentOf, TextOf, ReasoningOf, SignatureOf, ToolOrder, Started;
    StepTools(s, e);
    Snoc(events, e);
    SnocContent(events, e);
    var s' := Step(s, e);
    forall i | NoDone(events + [e], i) ensures ToolAt(s', i) == PendingAt(events + [e], i) {
      assert (events + [e])[|events|] == e;
      NoDoneBefore(events, e, i);
    }
  }

  lemma NoDoneBefore(events: seq<Event>, e: Event, i: int)
    requires NoDone(events + [e], i)
    ensures NoDone(events, i)
  {
    forall p | 0 <= p < |events| ensures events[p] == (events + [e])[p] {}
  }

  lemma {:induction false} EncodeHolds(id: string, model: string, events: seq<Event>)
    requires NoTerminal(events)
    ensures Holds(Encode(id, model, events), events)
  {
    if events != [] {
      var before, e := events[..|events| - 1], events[|events| - 1];
      assert events == before + [e];
      assert e in events && forall x <- before :: x in events;
      EncodeHolds(id, model, before);
      RunLive(id, model, before);
      StepHolds(Encode(id, model, before), before, e);
    }
  }

  // ----- What the reader has -----

  /** The reader between two events of the encoder: it has read the content so far, all
      but the signature of an open reasoning block; every index it tracks is a finished
      block. */
  ghost predicate Follows(s: Encoder, r: Reader, content: seq<Piece>, signature: string) {
    && r.status == Running && !r.deltaSeen && r.usage == NO_USAGE && r.tools.Valid()
    && ContentOf(r.events, true) == content
    && SignatureOf(r.events) + (if s.reasoningOpen then s.signature else "") == signature
    && RefusalOf(r.events) == ""
    && BlocksFollow(s, r)
  }

  ghost predicate BlocksFollow(s: Encoder, r: Reader) {
    && r.tools.AllDone()
    && forall j | j in r.tools.byIndex ::
         j < s.nextIndex && (s.textOpen ==> j < s.textIndex) && (s.reasoningOpen ==> j < s.reasoningIndex)
  }

  lemma ReadEmit(s: Encoder, f: Frame)
    ensures Read(Emit(s, f).frames) == ReadFrame(Read(s.frames), f)
  {
    ReadSnoc(s.frames, f);
  }

  /** One event about text or reasoning. */
  lemma ContentMore(events: seq<Event>, e: Event)
    requires !e.IsTool()
    ensures ContentOf(events + [e], true) == ContentOf(events, true) +
            if e.TextDelta? && e.delta != "" then [Said(e.delta)]
            else if e.ReasoningDelta? && e.delta != "" then [Thought(e.delta)] else []
    ensures SignatureOf(events + [e]) == if e.ReasoningDelta? then SignatureOf(events) + e.signature else SignatureOf(events)
    ensures RefusalOf(events + [e]) == if e.RefusalDelta? then RefusalOf(events) + e.delta else RefusalOf(events)
  {
    SnocContent(events, e);
    Snoc(events, e);
  }

  /** The stop of a block that is not a tool: a Done without a Start, which is no content. */
  lemma PhantomDone(r: Reader, index: int)
    requires ReaderTracks(r) && r.status == Running && index !in r.tools.byIndex
    ensures var r' := ReadFrame(r, BlockStop(index));
            && r' == r.(tools := r'.tools, events := r'.events) && r'.tools.Valid()
            && r'.tools.byIndex == r.tools.byIndex[index := ToolState("", "", "", "", true)]
            && ContentOf(r'.events, true) == ContentOf(r.events, true)
            && SignatureOf(r'.events) == SignatureOf(r.events) && RefusalOf(r'.events) == RefusalOf(r.events)
  {
    hide ContentOf, SignatureOf, RefusalOf, CallAt, ToolOrder, Started, OnceEach, Agrees;
    var e := ToolDone(index, "", "", "", "");
    SnocContent(r.events, e);
    Snoc(r.events, e);
    assert index !in Started(r.events);
    assert ContentOf(r.events, true) + [] == ContentOf(r.events, true);
  }

  lemma CloseTextFollows(s: Encoder, content: seq<Piece>, signature: string)
    requires Live(s.(finished := false)) && Follows(s, Read(s.frames), content, signature)
    ensures var s' := CloseText(s); Follows(s', Read(s'.frames), content, signature)
  {
    hide Read, ReadFrame, ContentOf, SignatureOf, RefusalOf, PlaceOf, Tracks;
    if s.textOpen {
      var r := Read(s.frames);
      ReadTracks(s.frames);
      ReadEmit(s, BlockStop(s.textIndex));
      PhantomDone(r, s.textIndex);
    }
  }

  lemma SignedFollows(s: Encoder, content: seq<Piece>, signature: string)
    requires s.reasoningOpen && s.signature != "" && Follows(s, Read(s.frames), content, signature)
    ensures var s' := Emit(s, BlockDelta(s.reasoningIndex, SignaturePart(s.signature)));
            Follows(s'.(signature := ""), Read(s'.frames), content, signature)
  {
    hide Read, ContentOf, SignatureOf, RefusalOf;
    var r := Read(s.frames);
    ReadEmit(s, BlockDelta(s.reasoningIndex, SignaturePart(s.signature)));
    var e := ReasoningDelta(s.reasoningIndex, "", s.signature);
    ContentMore(r.events, e);
    assert ContentOf(r.events, true) + [] == ContentOf(r.events, true);
    assert SignatureOf(r.events) + s.signature + "" == SignatureOf(r.events) + s.signature;
  }

  lemma StopReasoningFollows(s: Encoder, content: seq<Piece>, signature: string)
    requires s.reasoningOpen && !s.textOpen && s.signature == "" && s.nextIndex == s.reasoningIndex + 1
    requires Follows(s, Read(s.frames), content, signature)
    ensures var s' := Emit(s, BlockStop(s.reasoningIndex)).(reasoningOpen := false);
            forall sig :: Follows(s'.(signature := sig), Read(s'.frames), content, signature)
  {
    hide Read, ReadFrame, ContentOf, SignatureOf, RefusalOf, Tracks;
    var r := Read(s.frames);
    ReadTracks(s.frames);
    ReadEmit(s, BlockStop(s.reasoningIndex));
    PhantomDone(r, s.reasoningIndex);
  }

  lemma CloseReasoningFollows(s: Encoder, content: seq<Piece>, signature: string)
    requires Live(s.(finished := false)) && Follows(s, Read(s.frames), content, signature)
    ensures var s' := CloseReasoning(s); Follows(s', Read(s'.frames), content, signature)
  {
    hide Read, Follows, PlaceOf;
    if s.reasoningOpen {
      var signed := if s.signature == "" then s else Emit(s, BlockDelta(s.reasoningIndex, SignaturePart(s.signature)));
      if s.signature != "" {
        SignedFollows(s, content, signature);
      }
      StopReasoningFollows(signed.(signature := ""), content, signature);
      var s' := CloseReasoning(s);
      assert s' == Emit(signed.(signature := ""), BlockStop(s.reasoningIndex)).(reasoningOpen := false).(signature := s.signature);
    }
  }

  lemma CloseBothFollows(s: Encoder, content: seq<Piece>, signature: string)
    requires Live(s.(finished := false)) && Follows(s, Read(s.frames), content, signature)
    ensures var s' := CloseText(CloseReasoning(s));
            Follows(s', Read(s'.frames), content, signature) && PlaceOf(s'.frames) == Between(s.nextIndex)
            && s' == s.(reasoningOpen := false, textOpen := false, frames := s'.frames)
  {
    hide Read, Follows, PlaceOf;
    CloseBothPlace(s);
    CloseReasoningPlace(s);
    CloseReasoningFollows(s, content, signature);
    if s.textOpen {
      assert CloseReasoning(s) == s;
      CloseTextFollows(s, content, signature);
    }
  }

  // ----- One event -----

  lemma StartTextFollows(s: Encoder, content: seq<Piece>, signature: string)
    requires !s.textOpen && !s.reasoningOpen && Follows(s, Read(s.frames), content, signature)
    ensures var s' := EnsureText(s); Follows(s', Read(s'.frames), content, signature)
  {
    hide Read, ContentOf, SignatureOf, RefusalOf;
    ReadEmit(s.(textOpen := true, textIndex := s.nextIndex, nextIndex := s.nextIndex + 1), BlockStart(s.nextIndex, TextBlock));
  }

  lemma SayTextFollows(s: Encoder, delta: string, content: seq<Piece>, signature: string)
    requires s.textOpen && delta != "" && Follows(s, Read(s.frames), content, signature)
    ensures var s' := Emit(s, BlockDelta(s.textIndex, TextPart(delta)));
            Follows(s', Read(s'.frames), content + [Said(delta)], signature)
  {
    hide Read, ContentOf, SignatureOf, RefusalOf;
    ReadEmit(s, BlockDelta(s.textIndex, TextPart(delta)));
    ContentMore(Read(s.frames).events, TextDelta(s.textIndex, delta));
  }

  lemma TextFollows(s: Encoder, delta: string, content: seq<Piece>, signature: string)
    requires Live(s) && Follows(s, Read(s.frames), content, signature)
    ensures var s' := WriteTextDelta(s, delta);
            Follows(s', Read(s'.frames), content + (if delta == "" then [] else [Said(delta)]), signature)
  {
    hide Read, Follows, PlaceOf;
    assert s.(finished := false) == s;
    assert content + [] == content;
    if delta != "" {
      if !s.textOpen {
        CloseReasoningFollows(s, content, signature);
        CloseReasoningPlace(s);
        StartTextFollows(CloseReasoning(s), content, signature);
      }
      SayTextFollows(EnsureText(s), delta, content, signature);
    }
  }

  lemma StartReasoningFollows(s: Encoder, content: seq<Piece>, signature: string)
    requires !s.textOpen && !s.reasoningOpen && Follows(s, Read(s.frames), content, signature)
    ensures var s' := EnsureReasoning(s); Follows(s', Read(s'.frames), content, signature)
  {
    hide Read, ContentOf, SignatureOf, RefusalOf;
    ReadEmit(s.(signature := "", reasoningOpen := true, reasoningIndex := s.nextIndex, nextIndex := s.nextIndex + 1),
             BlockStart(s.nextIndex, ThinkingBlock));
  }

  lemma SayReasoningFollows(s: Encoder, delta: string, more: string, content: seq<Piece>, signature: string)
    requires s.reasoningOpen && Follows(s, Read(s.frames), content, signature)
    ensures var said := if delta == "" then s else Emit(s, BlockDelta(s.reasoningIndex, ThinkingPart(delta)));
            var s' := if more == "" then said else said.(signature := said.signature + more);
            Follows(s', Read(s'.frames), content + (if delta == "" then [] else [Thought(delta)]), signature + more)
  {
    hide Read, ContentOf, SignatureOf, RefusalOf;
    var r := Read(s.frames);
    assert content + [] == content && signature + "" == signature;
    assert SignatureOf(r.events) + (s.signature + more) == SignatureOf(r.events) + s.signature + more;
    if delta != "" {
      ReadEmit(s, BlockDelta(s.reasoningIndex, ThinkingPart(delta)));
      ContentMore(r.events, ReasoningDelta(s.reasoningIndex, delta, ""));
      assert SignatureOf(r.events) + "" == SignatureOf(r.events);
    }
  }

  lemma ReasoningFollows(s: Encoder, delta: string, more: string, content: seq<Piece>, signature: string)
    requires Live(s) && Follows(s, Read(s.frames), content, signature)
    ensures var s' := WriteReasoningDelta(s, delta, more);
            Follows(s', Read(s'.frames), content + (if delta == "" then [] else [Thought(delta)]), signature + more)
  {
    hide Read, Follows, PlaceOf;
    assert s.(finished := false) == s;
    if delta == "" && more == "" {
      assert content + [] == content && signature + "" == signature;
    } else {
      if !s.reasoningOpen {
        CloseTextFollows(s, content, signature);
        var quiet := CloseText(s);
        assert EnsureReasoning(quiet) == EnsureReasoning(s);
        StartReasoningFollows(quiet, content, signature);
      }
      SayReasoningFollows(EnsureReasoning(s), delta, more, content, signature);
    }
  }

  /** The three frames of a finished call read as a Start, a fragment and a Done. */
  lemma ToolReads(r: Reader, j: int, tool: PendingTool)
    requires ReaderTracks(r) && r.status == Running && j !in r.tools.byIndex
    ensures var r' := ReadFrame(ReadFrame(ReadFrame(r, BlockStart(j, ToolUseBlock(tool.id, tool.name))),
                                          BlockDelta(j, JsonPart(tool.arguments))), BlockStop(j));
            && r' == r.(tools := r'.tools, events := r'.events) && r'.tools.Valid()
            && r'.tools.byIndex == r.tools.byIndex[j := ToolState(tool.id, tool.name, "", tool.arguments, true)]
            && r'.events == r.events + [ToolStart(j, tool.id, tool.name, "")] + [ToolDelta(j, tool.id, tool.name, tool.arguments)]
                            + [ToolDone(j, tool.id, tool.name, tool.arguments, "")]
  {
    hide Tracks;
    var r1 := ReadFrame(r, BlockStart(j, ToolUseBlock(tool.id, tool.name)));
    assert r1.tools.byIndex == r.tools.byIndex[j := ToolState(tool.id, tool.name, "", "", false)];
    var r2 := ReadFrame(r1, BlockDelta(j, JsonPart(tool.arguments)));
    assert "" + tool.arguments == tool.arguments;
    assert r2.tools.byIndex == r.tools.byIndex[j := ToolState(tool.id, tool.name, "", tool.arguments, false)];
  }

  lemma ToolContent(events: seq<Event>, j: int, tool: PendingTool)
    requires PendingAt(events, j) == PendingTool("", "", "")
    ensures var events' := events + [ToolStart(j, tool.id, tool.name, "")] + [ToolDelta(j, tool.id, tool.name, tool.arguments)]
                           + [ToolDone(j, tool.id, tool.name, tool.arguments, "")];
            && ContentOf(events', true) == ContentOf(events, true) + [Called(tool.id, tool.name, tool.arguments)]
            && SignatureOf(events') == SignatureOf(events) && RefusalOf(events') == RefusalOf(events)
  {
    hide PendingAt, ContentOf, SignatureOf, RefusalOf, Started;
    var a, b, c := ToolStart(j, tool.id, tool.name, ""), ToolDelta(j, tool.id, tool.name, tool.arguments),
                   ToolDone(j, tool.id, tool.name, tool.arguments, "");
    var one, two := events + [a], events + [a] + [b];
    QuietToolContent(events, a);
    QuietToolContent(one, b);
    assert "" + tool.arguments == tool.arguments;
    assert PendingAt(two, j) == PendingTool(tool.id, tool.name, tool.arguments);
    assert j in Started(two);
    SnocContent(two, c);
    Snoc(two, c);
  }

  /** A Start or a fragment adds nothing to the content yet. */
  lemma QuietToolContent(events: seq<Event>, e: Event)
    requires e.ToolStart? || e.ToolDelta?
    ensures var events' := events + [e];
            && ContentOf(events', true) == ContentOf(events, true)
            && SignatureOf(events') == SignatureOf(events) && RefusalOf(events') == RefusalOf(events)
            && (e.ToolStart? || e.index in Started(events) ==> e.index in Started(events'))
            && PendingAt(events', e.index) == if e.ToolStart? then PendingTool(e.callID, e.name, "")
                                              else PendingAt(events, e.index).(arguments := PendingAt(events, e.index).arguments + e.delta)
  {
    hide PendingAt, ContentOf, SignatureOf, RefusalOf, Started;
    SnocContent(events, e);
    Snoc(events, e);
    assert ContentOf(events, true) + [] == ContentOf(events, true);
  }

  lemma WriteToolFollows(s: Encoder, tool: PendingTool, content: seq<Piece>, signature: string)
    requires !s.textOpen && !s.reasoningOpen && Follows(s, Read(s.frames), content, signature)
    ensures var s' := WriteTool(s, tool);
            Follows(s', Read(s'.frames), content + [Called(tool.id, tool.name, tool.arguments)], signature)
  {
    hide Read, ReadFrame, ContentOf, SignatureOf, RefusalOf, PendingAt, Tracks;
    var r, j := Read(s.frames), s.nextIndex;
    var started := Emit(s.(nextIndex := j + 1), BlockStart(j, ToolUseBlock(tool.id, tool.name)));
    ReadEmit(s.(nextIndex := j + 1), BlockStart(j, ToolUseBlock(tool.id, tool.name)));
    ReadEmit(started, BlockDelta(j, JsonPart(tool.arguments)));
    ReadEmit(Emit(started, BlockDelta(j, JsonPart(tool.arguments))), BlockStop(j));
    ReadTracks(s.frames);
    ToolReads(r, j, tool);
    FreshIndex(r, j);
    UnseenPending(r.events, j);
    ToolContent(r.events, j, tool);
  }

  lemma FreshIndex(r: Reader, j: int)
    requires ReaderTracks(r) && j !in r.tools.byIndex
    ensures CallAt(r.events, j).Unseen?
  {
    OrderMatchesMap(r.tools, r.events);
    ToolOrderIsSeen(r.events);
  }

  lemma DoneFollows(s: Encoder, e: Event, pending: PendingTool, content: seq<Piece>, signature: string)
    requires Live(s) && Follows(s, Read(s.frames), content, signature) && e.ToolDone? && ToolAt(s, e.index) == pending
    ensures Follows(Step(s, e), Read(Step(s, e).frames), content + [CallAtDone(pending, e)], signature)
  {
    hide Read, Follows, PlaceOf, CloseText, CloseReasoning, WriteTool;
    assert s.(finished := false) == s;
    CloseBothFollows(s, content, signature);
    var quiet := CloseText(CloseReasoning(s));
    var call := CallAtDone(pending, e);
    var tool := PendingTool(call.id, call.name, call.arguments);
    RetooledFollows(quiet, Read(quiet.frames), quiet.tools[e.index := tool], content, signature);
    WriteToolFollows(quiet.(tools := quiet.tools[e.index := tool]), tool, content, signature);
  }

  lemma RetooledFollows(s: Encoder, r: Reader, tools: map<int, PendingTool>, content: seq<Piece>, signature: string)
    requires Follows(s, r, content, signature)
    ensures Follows(s.(tools := tools), r, content, signature)
  {}

  // ----- A run -----

  /** The reader after a stream of events has read exactly its content. */
  ghost predicate CaughtUp(s: Encoder, events: seq<Event>) {
    Follows(s, Read(s.frames), ContentOf(events, false), SignatureOf(events))
  }

  lemma StepCaughtUp(s: Encoder, events: seq<Event>, e: Event)
    requires Live(s) && Holds(s, events) && CaughtUp(s, events) && !e.IsTerminal()
    requires e.ToolDone? ==> NoDone(events, e.index)
    ensures CaughtUp(Step(s, e), events + [e])
  {
    hide Read, Follows, PlaceOf, ContentOf, SignatureOf, PendingAt, RefusalOf, UsageOf;
    SnocContent(events, e);
    Snoc(events, e);
    var content, signature := ContentOf(events, false), SignatureOf(events);
    assert content + [] == content && signature + "" == signature;
    match e
    case TextDelta(_, delta) => TextFollows(s, delta, content, signature);
    case ReasoningDelta(_, delta, more) => ReasoningFollows(s, delta, more, content, signature);
    case ToolDone(_, _, _, _, _) => DoneFollows(s, e, PendingAt(events, e.index), content, signature);
    case ToolStart(_, _, _, _) => RetooledFollows(s, Read(s.frames), Step(s, e).tools, content, signature);
    case ToolDelta(_, _, _, _) => RetooledFollows(s, Read(s.frames), Step(s, e).tools, content, signature);
    case RefusalDelta(_, delta) => AnnotatedFollows(s, Read(s.frames), s.refusal + delta, s.usage, content, signature);
    case UsageReport(usage) => AnnotatedFollows(s, Read(s.frames), s.refusal, usage, content, signature);
    case _ =>
  }

  lemma AnnotatedFollows(s: Encoder, r: Reader, refusal: string, usage: Usage, content: seq<Piece>, signature: string)
    requires Follows(s, r, content, signature)
    ensures Follows(s.(refusal := refusal, usage := usage), r, content, signature)
  {}

  lemma EmptyContent()
    ensures ContentOf([], true) == [] == ContentOf([], false) && SignatureOf([]) == "" == RefusalOf([])
    ensures Read([]) == START
  {}

  lemma InitCaughtUp(id: string, model: string)
    ensures CaughtUp(Init(id, model), [])
  {
    hide Read, ContentOf, SignatureOf, RefusalOf;
    EmptyContent();
    ReadEmit(Encoder(0, 0, false, 0, false, "", "", map[], NO_USAGE, false, []), MessageStarted(id, model, "assistant", NO_TOKENS));
    var a, b := ResponseStart(id, 0, model), MessageStart(0, "assistant");
    ContentMore([], a);
    ContentMore([] + [a], b);
  }

  lemma {:induction false} EncodeCaughtUp(id: string, model: string, events: seq<Event>)
    requires NoTerminal(events) && DoneAtMostOnce(events)
    ensures CaughtUp(Encode(id, model, events), events)
  {
    hide CaughtUp, Live, Holds;
    if events == [] {
      InitCaughtUp(id, model);
    } else {
      var before, e := events[..|events| - 1], events[|events| - 1];
      assert events == before + [e];
      assert e in events && forall x <- before :: x in events;
      forall p | 0 <= p < |before| ensures before[p] == events[p] && before[..p] == events[..p] {}
      EncodeCaughtUp(id, model, before);
      RunLive(id, model, before);
      EncodeHolds(id, model, before);
      StepCaughtUp(Encode(id, model, before), before, e);
    }
  }

  // ----- The end -----

  /** The usage a reader makes of the tokens the encoder tells. */
  function UsageBack(u: Usage): Usage {
    var prompt := if u.prompt < u.cached then u.cached else u.prompt;
    Usage(prompt, u.completion, prompt + u.completion, u.cached, 0)
  }

  /** The usage comes back unchanged exactly when nothing was reasoned, the total is the
      sum and no more was cached than prompted. */
  lemma UsageReturns(u: Usage)
    ensures MergeUsage(NO_USAGE, UsageToTokens(u)) == UsageBack(u)
    ensures UsageBack(u) == u <==> u.cached <= u.prompt && u.total == u.prompt + u.completion && u.reasoning == 0
  {}

  /** The refusal a client is told: only with the stop reason `refusal`, and then never empty. */
  function RefusalBack(reason: string, refusal: string): string {
    if FinishToStop(reason) != "refusal" then "" else if refusal == "" then "The request was declined" else refusal
  }

  lemma MessageDeltaReads(r: Reader, reason: string, refusal: string, usage: Usage)
    requires r.status == Running && r.tools.Valid() && r.tools.AllDone() && r.usage == NO_USAGE
    ensures var stop := FinishToStop(reason);
            var r' := ReadFrame(r, MessageDelta(stop, RefusalDetails(stop, refusal), UsageToTokens(usage)));
            var back := UsageBack(usage);
            && r' == r.(tools := r'.tools, usage := back, deltaSeen := true, finishReason := StopToFinish(stop), events := r'.events)
            && r'.tools.Valid() && r'.tools.AllDone()
            && r'.events == r.events + (if back.IsZero() then [] else [UsageReport(back)])
                            + (if stop == "refusal" then [RefusalDelta(0, RefusalBack(reason, refusal))] else [])
  {
    hide StopToFinish;
    UsageReturns(usage);
    DoneFirstQuiet(r.tools, |r.tools.order|);
    assert r.events + [] == r.events;
    assert r.events + (if UsageBack(usage).IsZero() then [] else [UsageReport(UsageBack(usage))]) + []
        == r.events + (if UsageBack(usage).IsZero() then [] else [UsageReport(UsageBack(usage))]);
  }

  lemma MessageStopReads(r: Reader)
    requires r.status == Running && r.tools.Valid() && r.tools.AllDone() && r.deltaSeen
    ensures var r' := Close(ReadFrame(r, MessageStop));
            ReadFrame(r, MessageStop).status == Finished
            && r' == r.(tools := r'.tools, status := Finished, events := r.events + [ResponseDone("", r.finishReason)])
  {
    DoneFirstQuiet(r.tools, |r.tools.order|);
    var said := r.events + [ResponseDone("", r.finishReason)];
    assert said + [] == said;
  }

  lemma EndingContent(events: seq<Event>, usage: Usage, told: seq<string>, reason: string)
    requires |told| <= 1 && RefusalOf(events) == ""
    ensures var events' := events + (if usage.IsZero() then [] else [UsageReport(usage)])
                           + (if told == [] then [] else [RefusalDelta(0, told[0])]) + [ResponseDone("", reason)];
            && ContentOf(events', true) == ContentOf(events, true) && SignatureOf(events') == SignatureOf(events)
            && RefusalOf(events') == if told == [] then "" else told[0]
  {
    hide ContentOf, SignatureOf, RefusalOf;
    var counted := events + (if usage.IsZero() then [] else [UsageReport(usage)]);
    ContentMore(events, UsageReport(usage));
    if usage.IsZero() {
      assert counted == events;
    }
    var refused := counted + (if told == [] then [] else [RefusalDelta(0, told[0])]);
    if told == [] {
      assert refused == counted;
    } else {
      ContentMore(counted, RefusalDelta(0, told[0]));
      assert "" + told[0] == told[0];
    }
    ContentMore(refused, ResponseDone("", reason));
    assert forall c: seq<Piece> {:trigger c + []} :: c + [] == c;
  }

  /** The round trip: encode any stream that finishes without error, with at most one Done
      per tool index, and read it back. The content comes back piece by piece in the same
      order, the signatures too, the finish reason as the tables map it, the refusal and the
      usage as far as the protocol carries them. */
  lemma AnthropicRoundTrips(id: string, model: string, sent: seq<Event>, status: string, reason: string)
    requires NoTerminal(sent) && DoneAtMostOnce(sent)
    ensures var r := Close(Read(Encode(id, model, sent + [ResponseDone(status, reason)]).frames));
            && r.status == Finished && r.usage == UsageBack(UsageOf(sent))
            && ContentOf(r.events, true) == ContentOf(sent, false)
            && SignatureOf(r.events) == SignatureOf(sent)
            && RefusalOf(r.events) == RefusalBack(reason, RefusalOf(sent))
            && r.events != [] && r.events[|r.events| - 1] == ResponseDone("", StopToFinish(FinishToStop(reason)))
  {
    hide CaughtUp, Live, Holds, Read;
    var s := Encode(id, model, sent);
    EncodeSnoc(id, model, sent, ResponseDone(status, reason));
    RunLive(id, model, sent);
    EncodeHolds(id, model, sent);
    EncodeCaughtUp(id, model, sent);
    FinishReads(s, sent, status, reason);
  }

  lemma FinishReads(s: Encoder, sent: seq<Event>, status: string, reason: string)
    requires Live(s) && Holds(s, sent) && CaughtUp(s, sent)
    ensures var r := Close(Read(Step(s, ResponseDone(status, reason)).frames));
            && r.status == Finished && r.usage == UsageBack(UsageOf(sent))
            && ContentOf(r.events, true) == ContentOf(sent, false)
            && SignatureOf(r.events) == SignatureOf(sent)
            && RefusalOf(r.events) == RefusalBack(reason, RefusalOf(sent))
            && r.events != [] && r.events[|r.events| - 1] == ResponseDone("", StopToFinish(FinishToStop(reason)))
  {
    hide Read, ReadFrame, Close, ContentOf, SignatureOf, RefusalOf, UsageOf, PlaceOf, CloseText, CloseReasoning, FinishToStop, StopToFinish;
    var ended := s.(finished := true);
    assert ended.(finished := false) == s;
    CloseBothFollows(ended, ContentOf(sent, false), SignatureOf(sent));
    var closed := CloseText(CloseReasoning(ended));
    var stop := FinishToStop(reason);
    var delta := MessageDelta(stop, RefusalDetails(stop, s.refusal), UsageToTokens(s.usage));
    assert s.(usage := if s.usage.IsZero() then s.usage else s.usage) == s;
    ReadEmit(closed, delta);
    ReadEmit(Emit(closed, delta), MessageStop);
    var r0 := Read(closed.frames);
    MessageDeltaReads(r0, reason, s.refusal, s.usage);
    var r1 := ReadFrame(r0, delta);
    MessageStopReads(r1);
    var told := if stop == "refusal" then [RefusalBack(reason, s.refusal)] else [];
    EndingContent(r0.events, UsageBack(s.usage), told, StopToFinish(stop));
    assert SignatureOf(r0.events) + "" == SignatureOf(r0.events);
  }
}
