/** Reading back what the Responses encoder writes gives the stream it was given:
    internal/stream_convert.go:85-499 against 1035-1247. Followed to the end of a run, the
    reader has caught up; the terminal frame tells it nothing new, if the call ids return. */
module ResponsesRoundTrip {
  import opened Canonical
  import opened ToolTracker
  import opened ResponsesFrames
  import opened ResponsesEncoderSpec
  import opened ResponsesGrammar
  import opened ResponsesMeaning
  import opened ResponsesReader
  import opened ResponsesItems
  import opened ResponsesIDs
  import opened ResponsesFollows

  // ----- The end of a run -----

  lemma CloseTextFollows(s: Encoder, status: string, known: Mentions)
    requires Unmixed(s) && Follows(s, Read(s.frames), known) && (s.text == "" <==> !s.textOpen)
    requires s.textOpen ==> forall i | i in s.tools && s.tools[i].done :: s.tools[i].outputIndex != s.textIndex
    ensures var s' := CloseText(s, status); Follows(Muted(s'), Read(s'.frames), known)
  {
    hide Read;
    if s.textOpen {
      var itemID := s.id + "_msg";
      var part := if s.textRefusal then Refusal(s.text) else OutputText(s.text);
      var item := MessageItem(itemID, status, [part]);
      var b := if s.textRefusal then RefusalTextDone(itemID, s.textIndex, s.text) else OutputTextDone(itemID, s.textIndex, s.text);
      var said := Emit(s, b);
      var parted := Emit(said, ContentPartDone(itemID, s.textIndex, part));
      ReadInert(s, b);
      ReadInert(said, ContentPartDone(itemID, s.textIndex, part));
      ReadInert(parted.(output := s.output[s.textIndex := item]), ItemDone(s.textIndex, item));
      ClosedTextFollows(s, Read(s.frames), Muted(CloseText(s, status)), item, known);
    }
  }

  lemma ClosedTextFollows(s: Encoder, r: Reader, s': Encoder, item: Item, known: Mentions)
    requires Unmixed(s) && Follows(s, r, known) && s.textOpen && s.text != ""
    requires forall i | i in s.tools && s.tools[i].done :: s.tools[i].outputIndex != s.textIndex
    requires item.kind == Message && item.content == [if s.textRefusal then Refusal(s.text) else OutputText(s.text)]
    requires s' == s.(output := s.output[s.textIndex := item], textOpen := false, frames := s'.frames, sequence := s'.sequence)
    ensures Follows(s', r, known)
  {
    hide CallAt, TextOf, RefusalOf, ReasoningOf, UsageOf, LastSignature, Started, CallFollows, CallItemsFollow, CallsFollow;
    CallsUnmoved(s, r, s', r, known);
  }

  lemma {:induction false} CloseToolsFollow(s: Encoder, indexes: seq<int>, known: Mentions)
    requires Sound(s) && Follows(s, Read(s.frames), known)
    ensures var s' := CloseTools(s, indexes); Follows(s', Read(s'.frames), known)
  {
    hide Read, Follows, Sound;
    if indexes != [] {
      var before, i := CloseTools(s, indexes[..|indexes| - 1]), indexes[|indexes| - 1];
      CloseToolsFollow(s, indexes[..|indexes| - 1], known);
      CloseToolsSound(s, indexes[..|indexes| - 1]);
      SoundUnmixed(before);
      if i in before.tools && !before.tools[i].done {
        var tool := before.tools[i];
        DoneFollows(before, i, tool.id, tool.name, tool.arguments, tool.signature, known);
      }
    }
  }

  lemma SoundUnmixed(s: Encoder)
    requires Sound(s)
    ensures Unmixed(s)
  {
    PhasesUnmixed(s, Life(s.frames));
  }

  lemma TextApart(s: Encoder)
    requires Live(s)
    ensures s.textOpen ==> forall i | i in s.tools && s.tools[i].done :: s.tools[i].outputIndex != s.textIndex
  {
    forall i | i in s.tools && s.tools[i].done && s.textOpen ensures s.tools[i].outputIndex != s.textIndex {
      assert ToolPhase(s, s.tools[i], Life(s.frames));
    }
  }

  /** When all is closed the reader knows every item, and has every call done. */
  lemma CloseAllFollows(s: Encoder, status: string, indexes: seq<int>, known: Mentions)
    requires Live(s) && Follows(s, Read(s.frames), known) && forall i | i in s.tools :: i in indexes
    ensures var s' := CloseAll(s, status, indexes);
            && Follows(Muted(s'), Read(s'.frames), known)
            && !s'.reasoningOpen && (forall i | i in s'.tools :: s'.tools[i].done && IsCallAt(s', s'.tools[i].outputIndex))
            && s'.tools.Keys == s.tools.Keys && SameSpeech(s, s')
  {
    hide Read, Follows, Sound;
    LiveApart(s);
    CloseReasoningFollows(s, known);
    CloseReasoningLive(s);
    CloseReasoningEffect(s);
    var quiet := CloseReasoning(s);
    TextApart(quiet);
    CloseTextFollows(quiet, status, known);
    CloseTextSound(quiet, status);
    var said := CloseText(quiet, status);
    MutedCloseTools(said, indexes);
    CloseToolsFollow(Muted(said), indexes, known);
    CloseToolsSound(Muted(said), indexes);
    CloseToolsSpeech(Muted(said), indexes);
    SoundCalls(CloseTools(Muted(said), indexes));
  }

  ghost predicate IsCallAt(s: Encoder, j: int) {
    j in s.output && s.output[j].kind == FunctionCall
  }

  lemma SoundCalls(s: Encoder)
    requires Sound(s)
    ensures forall i | i in s.tools && s.tools[i].done :: IsCallAt(s, s.tools[i].outputIndex)
  {
    forall i | i in s.tools && s.tools[i].done ensures IsCallAt(s, s.tools[i].outputIndex) {
      assert ToolPhase(s, s.tools[i], Life(s.frames));
    }
  }

  lemma {:induction false} CloseToolsSpeech(s: Encoder, indexes: seq<int>)
    ensures SameSpeech(s, CloseTools(s, indexes))
  {
    if indexes != [] {
      CloseToolsSpeech(s, indexes[..|indexes| - 1]);
    }
  }

  // ----- What the reader makes of the terminal frame -----

  /** Items the terminal frame repeats: a message says what was said. */
  ghost predicate Repeats(item: Item, refusal: bool, text: string) {
    match item.kind
    case Message => text != "" && item.content == [if refusal then Refusal(text) else OutputText(text)]
    case Reasoning => true
    case FunctionCall => true
    case OtherItem => false
  }

  lemma {:induction false} ContentRepeats(output: seq<Item>, refusal: bool, text: string)
    requires forall k | 0 <= k < |output| :: Repeats(output[k], refusal, text)
    ensures var c := ContentOf(output);
            (c.text != "" ==> !refusal && text != "") && (c.refusal != "" ==> refusal && text != "")
  {
    if output != [] {
      var before, item := output[..|output| - 1], output[|output| - 1];
      ContentRepeats(before, refusal, text);
      assert Repeats(item, refusal, text);
      if item.kind == Message {
        var part := if refusal then Refusal(text) else OutputText(text);
        assert item.content == [part] && item.content[..0] == [];
        assert Pieces(item.content, SpokenPiece) == PieceOf(part, SpokenPiece);
        assert Pieces(item.content, RefusedPiece) == PieceOf(part, RefusedPiece);
      }
    }
  }

  /** The id under which the terminal frame lists a call. */
  function ListedID(item: Item): string {
    FirstNonBlank(item.callID, item.id)
  }

  ghost function ListedIDs(output: seq<Item>): set<string> {
    set k | 0 <= k < |output| && output[k].kind == FunctionCall :: ListedID(output[k])
  }

  ghost function CallIDs(calls: seq<ToolCall>): set<string> {
    set k | 0 <= k < |calls| :: calls[k].id
  }

  lemma CallIDsSnoc(calls: seq<ToolCall>, call: ToolCall)
    ensures CallIDs(calls + [call]) == CallIDs(calls) + {call.id}
  {
    var more := calls + [call];
    assert more[|calls|] == call;
    forall id | id in CallIDs(calls) + {call.id} ensures id in CallIDs(more) {
      if id in CallIDs(calls) {
        var k :| 0 <= k < |calls| && calls[k].id == id;
        assert more[k].id == id;
      } else {
        assert more[|calls|].id == id;
      }
    }
  }

  lemma ListedIDsSnoc(output: seq<Item>, item: Item)
    ensures ListedIDs(output + [item]) == ListedIDs(output) + if item.kind == FunctionCall then {ListedID(item)} else {}
  {
    var more := output + [item];
    assert more[|output|] == item;
    forall id | id in ListedIDs(output) ensures id in ListedIDs(more) {
      var k :| 0 <= k < |output| && output[k].kind == FunctionCall && ListedID(output[k]) == id;
      assert more[k] == output[k];
    }
  }

  lemma HasCallsSnoc(output: seq<Item>, item: Item)
    ensures HasCalls(output + [item]) <==> HasCalls(output) || item.kind == FunctionCall
  {
    var more := output + [item];
    assert more[|output|] == item && forall k | 0 <= k < |output| :: more[k] == output[k];
  }

  /** The calls a reader finds in the output are its call items. */
  lemma {:induction false} ContentLists(output: seq<Item>)
    ensures CallIDs(ContentOf(output).calls) == ListedIDs(output)
    ensures ContentOf(output).calls != [] <==> HasCalls(output)
  {
    hide FirstNonBlank, ListedIDs, CallIDs, HasCalls;
    if output == [] {
      NothingListed();
    } else {
      var before, item := output[..|output| - 1], output[|output| - 1];
      ContentLists(before);
      assert output == before + [item];
      ListedIDsSnoc(before, item);
      HasCallsSnoc(before, item);
      CallIDsSnoc(ContentOf(before).calls, ToolCall(ListedID(item), item.name, item.arguments));
    }
  }

  lemma NothingListed()
    ensures CallIDs([]) == ListedIDs([]) && !HasCalls([])
  {
    assert CallIDs([]) == {} == ListedIDs([]);
  }

  predicate HasCalls(output: seq<Item>) {
    exists k :: 0 <= k < |output| && output[k].kind == FunctionCall
  }

  /** The ids the tracker knows. */
  ghost function KnownIDs(t: Tracker): set<string> {
    set j | j in t.byIndex :: t.byIndex[j].callID
  }

  /** A tracker that has every call done, each under an id. */
  ghost predicate Full(r: Reader) {
    && r.tools.Valid() && r.tools.AllDone()
    && (forall j | j in r.tools.byIndex :: j in r.tools.order && r.tools.byIndex[j].callID != "")
  }

  /** Nothing changes for such a tracker. */
  ghost predicate Settled(r: Reader, r': Reader) {
    && r' == r.(tools := r'.tools) && Full(r') && r'.tools.order == r.tools.order
    && r'.tools.byIndex.Keys == r.tools.byIndex.Keys
    && (forall j | j in r.tools.byIndex :: r'.tools.byIndex[j].callID == r.tools.byIndex[j].callID)
  }

  /** A call is told again unless it is found by its id, or a call stands at the place
      the reader gives it. */
  ghost predicate IsFound(r: Reader, ids: set<string>) {
    ids <= KnownIDs(r.tools) || |r.tools.order| in r.tools.byIndex
  }

  lemma KnownIsFound(r: Reader, id: string)
    requires Full(r) && id != ""
    ensures IndexForCallID(r.tools, id).Some? <==> id in KnownIDs(r.tools)
  {
    if id in KnownIDs(r.tools) {
      var j :| j in r.tools.byIndex && r.tools.byIndex[j].callID == id;
      var k :| 0 <= k < |r.tools.order| && r.tools.order[k] == j;
      assert r.tools.byIndex[r.tools.order[k]].callID == id;
    }
    var found := IndexForCallID(r.tools, id);
    if found.Some? {
      var j := found.value;
      assert j in r.tools.byIndex && r.tools.byIndex[j].callID == id;
    }
  }

  /** Told again of a call it has done, the tracker stays as it is but for a name. */
  lemma ToldAgain(r: Reader, index: int, call: ToolCall)
    requires Full(r) && index in r.tools.byIndex
    ensures var r' := DoneTool(StartTool(r, index, call.id, call.name), index, call.id, call.name, call.arguments);
            Settled(r, r')
  {
    assert r.events + [] == r.events;
  }

  lemma FoundCallSettled(r: Reader, call: ToolCall)
    requires Full(r) && call.id != "" && IsFound(r, {call.id})
    ensures Settled(r, ReadCall(r, call))
  {
    hide Settled, KnownIDs, StartTool, DoneTool;
    KnownIsFound(r, call.id);
    var known := IndexForCallID(r.tools, call.id);
    var index := if known.Some? then known.value else |r.tools.order|;
    assert index in r.tools.byIndex;
    ToldAgain(r, index, call);
  }

  lemma LostCallTold(r: Reader, call: ToolCall)
    requires Full(r) && call.id != "" && !IsFound(r, {call.id})
    ensures |ReadCall(r, call).tools.order| == |r.tools.order| + 1
  {
    hide ToolTracker.Done;
    KnownIsFound(r, call.id);
    assert {call.id} <= KnownIDs(r.tools) <==> call.id in KnownIDs(r.tools);
    var index := |r.tools.order|;
    var started := StartTool(r, index, call.id, call.name);
    assert started.tools.order == r.tools.order + [index] && index in started.tools.byIndex;
  }

  lemma CallGrows(r: Reader, call: ToolCall)
    requires r.tools.Valid()
    ensures |ReadCall(r, call).tools.order| >= |r.tools.order|
  {}

  lemma SettledSame(r: Reader, r': Reader)
    requires Settled(r, r') && r.tools.Valid()
    ensures KnownIDs(r'.tools) == KnownIDs(r.tools)
    ensures |r'.tools.order| in r'.tools.byIndex <==> |r.tools.order| in r.tools.byIndex
  {}

  /** The calls of the terminal frame change nothing if all are found, and otherwise
      leave the tracker with more calls than it had. */
  lemma {:induction false} CallsSettled(r: Reader, calls: seq<ToolCall>)
    requires Full(r) && r.tools.Valid() && forall k | 0 <= k < |calls| :: calls[k].id != ""
    ensures if IsFound(r, CallIDs(calls)) then Settled(r, ReadCalls(r, calls))
            else |ReadCalls(r, calls).tools.order| > |r.tools.order|
  {
    hide Full, Settled, ReadCall, KnownIDs;
    if calls == [] {
      NoneSettled(r);
    } else {
      var before, call := calls[..|calls| - 1], calls[|calls| - 1];
      CallsSettled(r, before);
      var r' := ReadCalls(r, before);
      assert calls == before + [call];
      CallIDsSnoc(before, call);
      if IsFound(r, CallIDs(before)) {
        NextSettled(r, r', call);
      } else {
        CallGrows(r', call);
      }
    }
  }

  lemma NoneSettled(r: Reader)
    requires Full(r)
    ensures Settled(r, ReadCalls(r, [])) && IsFound(r, CallIDs([]))
  {
    assert CallIDs([]) == {};
  }

  lemma NextSettled(r: Reader, r': Reader, call: ToolCall)
    requires Full(r) && Settled(r, r') && call.id != ""
    ensures if IsFound(r, {call.id}) then Settled(r, ReadCall(r', call))
            else |ReadCall(r', call).tools.order| > |r.tools.order|
  {
    hide ReadCall, KnownIDs;
    SettledSame(r, r');
    if IsFound(r, {call.id}) {
      FoundCallSettled(r', call);
    } else {
      LostCallTold(r', call);
    }
  }

  lemma TracksFull(r: Reader)
    requires ReaderTracks(r) && r.tools.AllDone()
    requires forall j | j in r.tools.byIndex :: r.tools.byIndex[j].callID != ""
    ensures Full(r)
  {
    OrderMatchesMap(r.tools, r.events);
  }

  /** The terminal frame ends the stream; it tells nothing else but the usage when all
      calls are found, and otherwise another call. */
  ghost predicate EndsWith(r: Reader, r': Reader, usage: Usage, done: Event, quiet: bool) {
    && r'.status == Finished && r'.usage == usage
    && r'.events != [] && r'.events[|r'.events| - 1] == done
    && if quiet then r'.events == r.events + (if usage.IsZero() then [] else [UsageReport(usage)]) + [done]
       else |ToolOrder(r'.events)| > |ToolOrder(r.events)|
  }

  lemma TerminalReads(r: Reader, resp: Response, refusal: bool, text: string)
    requires ReaderTracks(r) && Full(r) && r.status == Running
    requires (text != "" && !refusal ==> r.textSeen) && (text != "" && refusal ==> r.refusalSeen)
    requires forall k | 0 <= k < |resp.output| :: Repeats(resp.output[k], refusal, text)
    requires "" !in ListedIDs(resp.output)
    requires resp.status == "completed" || resp.status == "incomplete"
    ensures EndsWith(r, ReadTerminal(r, resp), resp.usage,
                     ResponseDone(resp.status, FinishReasonOf(resp.status, resp.incompleteReason, HasCalls(resp.output)).value),
                     IsFound(r, ListedIDs(resp.output)))
  {
    hide Tracks, ContentOf, ReadCalls, DoneTools, Repeats, ListedIDs, CallIDs, Full, IsFound, HasCalls, ToolOrder;
    ContentRepeats(resp.output, refusal, text);
    ContentLists(resp.output);
    var c := ContentOf(resp.output);
    assert ReadSpoken(r, c) == r;
    CallsRead(r, c.calls);
    ReadTerminalTracks(r, resp);
    OrderTold(r);
    OrderTold(ReadTerminal(r, resp));
  }

  lemma OrderTold(r: Reader)
    requires ReaderTracks(r)
    ensures r.tools.order == ToolOrder(r.events)
  {}

  lemma CallsRead(r: Reader, calls: seq<ToolCall>)
    requires ReaderTracks(r) && Full(r) && "" !in CallIDs(calls)
    ensures var r' := DoneTools(ReadCalls(r, calls));
            if IsFound(r, CallIDs(calls)) then r' == r.(tools := r'.tools) else |r'.tools.order| > |r.tools.order|
  {
    hide Tracks, ReadCalls, IsFound;
    forall k | 0 <= k < |calls| ensures calls[k].id != "" {
      assert calls[k].id in CallIDs(calls);
    }
    CallsSettled(r, calls);
    var called := ReadCalls(r, calls);
    if IsFound(r, CallIDs(calls)) {
      DoneFirstQuiet(called.tools, |called.tools.order|);
      assert called.events + [] == r.events;
    }
  }

  // ----- The round trip -----

  /** The finish reason a reader finds in the terminal frame. */
  function FinishReadBack(status: string, reason: string, refusal: string, hasCalls: bool): string {
    if ResponseStatus(status, reason, refusal) == "incomplete"
    then if reason == "content_filter" then "content_filter" else "length"
    else if hasCalls then "tool_calls" else "stop"
  }

  lemma ReaderAllDone(s: Encoder, r: Reader, known: Mentions)
    requires Follows(s, r, known) && ReaderTracks(r) && forall i | i in s.tools :: s.tools[i].done
    ensures Full(r)
  {
    hide Tracks, SpeechFollows, ItemsFollow, CallAt, Started;
    OrderMatchesMap(r.tools, r.events);
    forall j | j in r.tools.byIndex ensures r.tools.byIndex[j].done && r.tools.byIndex[j].callID != "" {
      var i := ToolAt(s, r, known, j);
      assert CallFollows(s.tools[i], s.output, r.tools.byIndex[j], CallAt(r.events, j), known.first[i]);
    }
    TracksFull(r);
  }

  /** Every tracked index is that of a tool. */
  lemma ToolAt(s: Encoder, r: Reader, known: Mentions, j: int) returns (i: int)
    requires CallsFollow(s, r, known) && ReaderTracks(r) && j in r.tools.byIndex
    ensures i in s.tools && s.tools[i].outputIndex == j
  {
    hide Tracks, CallAt, Started;
    OrderMatchesMap(r.tools, r.events);
    var k :| 0 <= k < |r.tools.order| && r.tools.order[k] == j;
    i := known.order[k];
  }

  /** The ids under which the terminal frame will list the calls. */
  ghost function Listed(s: Encoder): set<string> {
    set i | i in s.tools && s.tools[i].outputIndex in s.output :: ListedID(s.output[s.tools[i].outputIndex])
  }

  /** Every call is done and has its item, and every place has its item. */
  ghost predicate Concluded(s: Encoder) {
    && !s.textOpen && !s.reasoningOpen && 0 <= s.nextIndex && (forall j | 0 <= j < s.nextIndex :: j in s.output)
    && (forall i | i in s.tools ::
          s.tools[i].done && IsCallAt(s, s.tools[i].outputIndex) && 0 <= s.tools[i].outputIndex < s.nextIndex)
    && Distinct(s)
  }

  ghost predicate Distinct(s: Encoder) {
    forall k, l | k in s.tools && l in s.tools && k != l :: s.tools[k].outputIndex != s.tools[l].outputIndex
  }

  lemma OutputRepeats(s: Encoder)
    requires ItemsFollow(s) && CallItemsFollow(s) && Concluded(s)
    ensures var output := SortedOutput(s.output, s.nextIndex);
            && (forall k | 0 <= k < |output| :: Repeats(output[k], s.textRefusal, s.text))
            && ListedIDs(output) == Listed(s)
            && (HasCalls(output) <==> s.tools.Keys != {})
  {
    hide ListedID;
    SortedOutputAll(s.output, s.nextIndex);
    var output := SortedOutput(s.output, s.nextIndex);
    forall k | 0 <= k < |output|
      ensures Repeats(output[k], s.textRefusal, s.text)
      ensures output[k].kind == FunctionCall ==> ListedID(output[k]) in Listed(s) && s.tools.Keys != {}
    {
      assert output[k] == s.output[k] && k in s.output;
      if output[k].kind == FunctionCall {
        var i :| IsItemOf(s, k, i);
        assert i in s.tools.Keys;
      }
    }
    forall i | i in s.tools
      ensures HasCalls(output) && ListedID(s.output[s.tools[i].outputIndex]) in ListedIDs(output)
    {
      var j := s.tools[i].outputIndex;
      assert IsCallAt(s, j) && output[j] == s.output[j];
    }
    if s.tools.Keys != {} {
      HasMember(s.tools.Keys);
      var i: int := AnyOf(s.tools.Keys);
      assert i in s.tools;
    }
  }

  /** What a finished call is listed under: its id, or its item id when that is blank. */
  lemma ListedAs(s: Encoder, r: Reader, known: Mentions, i: int)
    requires CallsFollow(s, r, known) && CallItemsFollow(s) && Concluded(s) && i in s.tools
    ensures s.tools[i].outputIndex in s.output
    ensures var c := CallOf(s.tools[i], s.output);
            c.Closed? && ListedID(s.output[s.tools[i].outputIndex]) == FirstNonBlank(c.id, ToolItemID(s.id, i))
  {
    hide CallAt, Started, FirstNonBlank, ToolItemID, OrderFollows;
    CallKnown(s, r, known, i);
    var j := s.tools[i].outputIndex;
    assert IsCallAt(s, j);
    var k :| IsItemOf(s, j, k);
    assert s.tools[i].itemID == ToolItemID(s.id, i);
  }

  lemma ListedNotEmpty(s: Encoder, r: Reader, known: Mentions)
    requires CallsFollow(s, r, known) && CallItemsFollow(s) && Concluded(s)
    ensures "" !in Listed(s)
  {
    hide CallsFollow, Concluded, ToolItemID, CallItemsFollow;
    if "" in Listed(s) {
      var i :| i in s.tools && s.tools[i].outputIndex in s.output && ListedID(s.output[s.tools[i].outputIndex]) == "";
      ListedAs(s, r, known, i);
      ItemIDIsSolid(s.id, i);
    }
  }

  /** The reader when all is closed: caught up, with nothing left to learn. */
  lemma ClosedFollows(s: Encoder, status: string, indexes: seq<int>, known: Mentions) returns (closed: Encoder, r: Reader)
    requires Live(s) && Follows(s, Read(s.frames), known) && forall i | i in s.tools :: i in indexes
    ensures closed == Muted(CloseAll(s, status, indexes)) && r == Read(closed.frames)
    ensures Follows(closed, r, known) && SameSpeech(s, closed) && closed.tools.Keys == s.tools.Keys && Concluded(closed)
    ensures ReaderTracks(r) && Full(r)
  {
    hide Read, Follows, CloseAll, Tracks, Live, IsCallAt, Full;
    CloseAllFollows(s, status, indexes, known);
    AllClosed(s, status, indexes);
    var all := CloseAll(s, status, indexes);
    closed, r := Muted(all), Read(all.frames);
    ReadTracks(all.frames);
    ReaderAllDone(closed, r, known);
  }

  lemma AllClosed(s: Encoder, status: string, indexes: seq<int>)
    requires Live(s) && forall i | i in s.tools :: i in indexes
    ensures Concluded(Muted(CloseAll(s, status, indexes)))
  {
    hide CloseAll, Live;
    CloseAllEndsAll(s, status, indexes);
    CloseAllDone(s, status, indexes);
  }

  /** What the reader has when the run is over, given what it had when all was closed. */
  ghost predicate ReadsEnding(s: Encoder, status: string, reason: string, r: Reader, r': Reader, quiet: bool) {
    var refusal := if s.textRefusal then s.text else "";
    EndsWith(r, r', s.usage,
             ResponseDone(ResponseStatus(status, reason, refusal), FinishReadBack(status, reason, refusal, s.tools.Keys != {})),
             quiet)
  }

  lemma ClosedReads(closed: Encoder, r: Reader, known: Mentions, status: string, reason: string, resp: Response)
    requires Follows(closed, r, known) && ReaderTracks(r) && Full(r) && Concluded(closed)
    requires resp == TerminalResponse(closed, status, reason) && (status == "completed" || status == "incomplete")
    ensures EndsWith(r, ReadTerminal(r, resp), closed.usage,
                     ResponseDone(status, FinishReasonOf(status, resp.incompleteReason, closed.tools.Keys != {}).value),
                     IsFound(r, Listed(closed)))
  {
    hide ReadTerminal, Tracks, SpeechFollows, CallsFollow, ItemsFollow, Concluded, Full, Listed, ListedIDs, IsFound, HasCalls, Repeats, CallItemsFollow;
    OutputRepeats(closed);
    ListedNotEmpty(closed, r, known);
    FollowsFlags(closed, r, known);
    TerminalReads(r, resp, closed.textRefusal, closed.text);
  }

  lemma TerminalFollows(s: Encoder, status: string, reason: string, all: Encoder, r: Reader, known: Mentions)
    requires !s.finished
    requires all == CloseAll(s, ResponseStatus(status, reason, if s.textRefusal then s.text else ""), SortedKeys(s.tools.Keys))
    requires r == Read(all.frames) && Follows(Muted(all), r, known) && Concluded(Muted(all))
    requires SameSpeech(s, all) && all.tools.Keys == s.tools.Keys
    requires ReaderTracks(r) && Full(r)
    ensures ReadsEnding(s, status, reason, r, Read(Step(s, ResponseDone(status, reason)).frames), IsFound(r, Listed(Muted(all))))
  {
    hide Read, Follows, ReadTerminal, CloseAll, Tracks, Step, Emit, SortedKeys, Concluded, Full, Listed, IsFound, EndsWith;
    var status' := ResponseStatus(status, reason, if s.textRefusal then s.text else "");
    var resp := TerminalResponse(all, status', reason);
    ClosedReads(Muted(all), r, known, status', reason, resp);
    RunningFollows(Muted(all), r, known);
    FinishedFrames(s, status, reason);
    ReadEnding(all.(finished := true), if status' == "incomplete" then Incomplete(resp) else Completed(resp), resp);
  }

  /** The reader at the end of a finished run: caught up, then told how it ended. */
  lemma FinishFollows(s: Encoder, status: string, reason: string, known: Mentions)
    returns (closed: Encoder, r: Reader)
    requires Live(s) && Follows(s, Read(s.frames), known)
    ensures Follows(closed, r, known) && SameSpeech(s, closed) && closed.id == s.id && closed.tools.Keys == s.tools.Keys && Concluded(closed)
    ensures ReaderTracks(r) && Full(r) && ClosesTo(s, closed)
    ensures ReadsEnding(s, status, reason, r, Read(Step(s, ResponseDone(status, reason)).frames), IsFound(r, Listed(closed)))
  {
    hide Read, Follows, CloseAll, Tracks, Step, Phases, ReadsEnding, Concluded, Full, Listed, IsFound;
    var status' := ResponseStatus(status, reason, if s.textRefusal then s.text else "");
    closed, r := ClosedFollows(s, status', SortedKeys(s.tools.Keys), known);
    CloseAllMeans(s, status', SortedKeys(s.tools.Keys));
    TerminalFollows(s, status, reason, CloseAll(s, status', SortedKeys(s.tools.Keys)), r, known);
  }

  lemma FinishedFrames(s: Encoder, status: string, reason: string)
    requires !s.finished
    ensures var status' := ResponseStatus(status, reason, if s.textRefusal then s.text else "");
            var all := CloseAll(s, status', SortedKeys(s.tools.Keys));
            var resp := TerminalResponse(all, status', reason);
            Step(s, ResponseDone(status, reason)).frames ==
            Emit(all.(finished := true), if status' == "incomplete" then Incomplete(resp) else Completed(resp)).frames
  {
    hide CloseAll, WriteTextDelta, WriteToolDone, WriteToolDelta, WriteToolStart, WriteReasoningDelta;
    assert s.(usage := if s.usage.IsZero() then s.usage else s.usage) == s;
  }

  lemma RunningFollows(s: Encoder, r: Reader, known: Mentions)
    requires Follows(s, r, known)
    ensures r.status == Running
  {}

  lemma FollowsFlags(s: Encoder, r: Reader, known: Mentions)
    requires Follows(s, r, known)
    ensures r.status == Running && (r.textSeen <==> s.text != "" && !s.textRefusal) && (r.refusalSeen <==> s.text != "" && s.textRefusal)
  {}

  lemma ReadEnding(s: Encoder, b: Body, resp: Response)
    requires (b.Completed? || b.Incomplete?) && b.response == resp && Read(s.frames).status == Running
    ensures Read(Emit(s, b).frames) == ReadTerminal(Read(s.frames), resp)
  {
    hide Read, ReadTerminal;
    ReadEmit(s, b);
  }

  /** The events `read` tell the same as the events `sent`, which may leave calls open:
      same text or refusal, same reasoning and last signature, and the same calls in the
      same order, each started once and done once. */
  ghost predicate SameMeaning(sent: seq<Event>, read: seq<Event>) {
    && TextOf(read) == (if OpensWithRefusal(sent) then "" else SpokenOf(sent))
    && RefusalOf(read) == (if OpensWithRefusal(sent) then SpokenOf(sent) else "")
    && ReasoningOf(read) == ReasoningOf(sent)
    && LastSignature(read) == SignatureOf(sent)
    && OnceEach(read)
    && |ToolOrder(read)| == |ToolOrder(sent)|
    && (forall k | 0 <= k < |ToolOrder(sent)| ::
          var i, j := ToolOrder(sent)[k], ToolOrder(read)[k];
          j in Started(read) && CallAt(read, j).Closed? && CallAt(read, j) == CallAt(sent, i).Close())
  }

  lemma ClosedCalls(closed: Encoder, r: Reader, sent: seq<Event>, k: nat)
    requires Follows(closed, r, MentionsOf(sent)) && ReaderTracks(r) && Concluded(closed) && k < |ToolOrder(sent)|
    requires ToolOrder(sent)[k] in closed.tools
    ensures k < |ToolOrder(r.events)|
    ensures var i, j := ToolOrder(sent)[k], ToolOrder(r.events)[k];
            var call := CallOf(closed.tools[i], closed.output);
            && j in Started(r.events) && CallAt(r.events, j).Closed? && call.Closed?
            && (CallAt(r.events, j) == call <==> FirstNonEmpty(FirstID(sent, i), ToolItemID(closed.id, i)) == call.id)
            && (FirstID(sent, i) != "" ==> call.id == FirstID(sent, i))
  {
    hide CallAt, ToolOrder, Started, SpeechFollows, ItemsFollow, FirstID, ToolItemID;
    var i := ToolOrder(sent)[k];
    var j := closed.tools[i].outputIndex;
    assert r.tools.order[k] == j;
    assert MentionsOf(sent).first[i] == FirstID(sent, i);
    assert CallFollows(closed.tools[i], closed.output, r.tools.byIndex[j], CallAt(r.events, j), FirstID(sent, i));
  }

  /** Closing does not change what a call is, only that it is closed. */
  ghost predicate ClosesTo(s: Encoder, s': Encoder) {
    && s'.id == s.id && s'.tools.Keys == s.tools.Keys
    && forall i | i in s.tools ::
         && CallOf(s'.tools[i], s'.output).Close() == CallOf(s.tools[i], s.output).Close()
         && s'.tools[i].outputIndex == s.tools[i].outputIndex
  }

  lemma CloseToolMeans(s: Encoder, index: int)
    requires Unmixed(s)
    ensures ClosesTo(s, CloseTool(s, index))
  {
    if index in s.tools && !s.tools[index].done {
      var tool := s.tools[index];
      var s' := CloseTool(s, index);
      DoneEffect(s, index, tool.id, tool.name, tool.arguments, tool.signature);
      forall i | i in s.tools ensures CallOf(s'.tools[i], s'.output).Close() == CallOf(s.tools[i], s.output).Close() {
        if i != index {
          assert Some(i) != Some(index);
        }
      }
    }
  }

  lemma {:induction false} CloseToolsMeans(s: Encoder, indexes: seq<int>)
    requires Sound(s)
    ensures ClosesTo(s, CloseTools(s, indexes))
  {
    hide Sound, Phases;
    if indexes != [] {
      CloseToolsMeans(s, indexes[..|indexes| - 1]);
      CloseToolsSound(s, indexes[..|indexes| - 1]);
      SoundUnmixed(CloseTools(s, indexes[..|indexes| - 1]));
      CloseToolMeans(CloseTools(s, indexes[..|indexes| - 1]), indexes[|indexes| - 1]);
    }
  }

  lemma CloseTextMeans(s: Encoder, status: string)
    requires Live(s)
    ensures ClosesTo(s, Muted(CloseText(s, status)))
  {
    TextApart(s);
  }

  lemma CloseAllMeans(s: Encoder, status: string, indexes: seq<int>)
    requires Live(s)
    ensures ClosesTo(s, CloseAll(s, status, indexes))
  {
    hide Live, Sound, CloseReasoning, CloseText, CloseTools;
    LiveApart(s);
    CloseReasoningEffect(s);
    CloseReasoningLive(s);
    var quiet := CloseReasoning(s);
    CloseTextMeans(quiet, status);
    LiveSound(quiet);
    CloseTextSound(quiet, status);
    var said := CloseText(quiet, status);
    MutedCloseTools(said, indexes);
    CloseToolsMeans(Muted(said), indexes);
    assert ClosesTo(s, quiet) by {
      QuietKeepsID(s);
      forall i | i in s.tools ensures CallOf(quiet.tools[i], quiet.output).Close() == CallOf(s.tools[i], s.output).Close() {
        assert Some(i) != None;
      }
    }
  }

  lemma QuietKeepsID(s: Encoder)
    ensures CloseReasoning(s).id == s.id
  {}

  /** All closed, every call is done and has its item. */
  lemma CloseAllDone(s: Encoder, status: string, indexes: seq<int>)
    requires Live(s) && forall i | i in s.tools :: i in indexes
    ensures var s' := CloseAll(s, status, indexes);
            && s'.tools.Keys == s.tools.Keys
            && (forall i | i in s'.tools ::
                  s'.tools[i].done && IsCallAt(s', s'.tools[i].outputIndex) && 0 <= s'.tools[i].outputIndex < s'.nextIndex)
            && !s'.reasoningOpen && Distinct(s')
  {
    hide Live, Sound, CloseReasoning, CloseText, CloseTools;
    LiveApart(s);
    CloseReasoningLive(s);
    CloseReasoningEffect(s);
    var quiet := CloseReasoning(s);
    LiveSound(quiet);
    CloseTextSound(quiet, status);
    TextKeepsTools(quiet, status);
    var said := CloseText(quiet, status);
    MutedCloseTools(said, indexes);
    CloseToolsSound(Muted(said), indexes);
    SoundCalls(CloseTools(Muted(said), indexes));
    SoundPlaces(CloseTools(Muted(said), indexes));
  }

  lemma TextKeepsTools(s: Encoder, status: string)
    ensures CloseText(s, status).tools == s.tools && CloseText(s, status).reasoningOpen == s.reasoningOpen
  {}

  lemma SoundPlaces(s: Encoder)
    requires Sound(s)
    ensures Distinct(s) && forall i | i in s.tools :: 0 <= s.tools[i].outputIndex < s.nextIndex
  {
    forall i | i in s.tools ensures 0 <= s.tools[i].outputIndex < s.nextIndex {
      assert ToolPhase(s, s.tools[i], Life(s.frames));
    }
  }

  lemma LiveSound(s: Encoder)
    requires Live(s)
    ensures Sound(s)
  {}

  /** Reading the terminal frame adds the usage and the end, nothing else. */
  lemma EndingMeans(events: seq<Event>, usage: Usage, status: string, reason: string)
    requires OnceEach(events) && UsageOf(events) == NO_USAGE
    ensures var read := events + (if usage.IsZero() then [] else [UsageReport(usage)]) + [ResponseDone(status, reason)];
            && TextOf(read) == TextOf(events) && RefusalOf(read) == RefusalOf(events) && ReasoningOf(read) == ReasoningOf(events)
            && LastSignature(read) == LastSignature(events) && UsageOf(read) == usage && OnceEach(read)
            && ToolOrder(read) == ToolOrder(events) && Started(read) == Started(events)
            && (forall j :: CallAt(read, j) == CallAt(events, j))
  {
    hide CallAt, TextOf, RefusalOf, ReasoningOf, UsageOf, LastSignature, Started, ToolOrder;
    var u, d := UsageReport(usage), ResponseDone(status, reason);
    Snoc(events, u);
    SnocOther(events, u);
    SnocOnceEach(events, u);
    var told := events + (if usage.IsZero() then [] else [u]);
    if usage.IsZero() {
      assert told == events;
    }
    Snoc(told, d);
    SnocOther(told, d);
    SnocOnceEach(told, d);
  }

  /** What a client reads of a finished run: the usage and the finish, and the meaning of
      what was sent exactly when the ids return. */
  ghost predicate ReadsBack(id: string, sent: seq<Event>, status: string, reason: string, r: Reader) {
    var refusal := if OpensWithRefusal(sent) then SpokenOf(sent) else "";
    && r.status == Finished && r.usage == UsageOf(sent)
    && r.events != []
    && r.events[|r.events| - 1] == ResponseDone(ResponseStatus(status, reason, refusal),
                                                FinishReadBack(status, reason, refusal, ToolOrder(sent) != []))
    && (SameMeaning(sent, r.events) <==> IdsReturn(id, sent))
    && (IdsReturn(id, sent) ==> UsageOf(r.events) == UsageOf(sent))
  }

  /** The round trip: encode any stream that finishes without error and read it back. The
      reader finishes, with the usage of the stream and its finish last; and the stream
      read means what the stream sent means exactly when its call ids return. */
  lemma ResponsesRoundTrips(id: string, created: int, model: string, sent: seq<Event>, status: string, reason: string)
    requires NoTerminal(sent)
    ensures ReadsBack(id, sent, status, reason, Read(Encode(id, created, model, sent + [ResponseDone(status, reason)]).frames))
  {
    hide Read, Live, Means, Step, Follows, ReadsBack, Encode, NoTerminal, MentionsOf, Places;
    var s := Encode(id, created, model, sent);
    EncodeSnoc(id, created, model, sent, ResponseDone(status, reason));
    RunLive(id, created, model, sent);
    EncodeMeans(id, created, model, sent);
    EncodeFollows(id, created, model, sent);
    RunPlaces(id, created, model, sent);
    FinishMeans(s, sent, status, reason);
  }

  /** Ids that are not blank all return. */
  lemma NonBlankRoundTrips(id: string, created: int, model: string, sent: seq<Event>, status: string, reason: string)
    requires NoTerminal(sent) && IdsNonBlank(sent)
    ensures var r := Read(Encode(id, created, model, sent + [ResponseDone(status, reason)]).frames);
            r.status == Finished && SameMeaning(sent, r.events) && r.usage == UsageOf(r.events) == UsageOf(sent)
  {
    hide Read, Encode, SameMeaning, IdsReturn, IdsNonBlank, NoTerminal, OpensWithRefusal, SpokenOf, UsageOf, ToolOrder;
    ResponsesRoundTrips(id, created, model, sent, status, reason);
    NonBlankReturn(id, sent);
  }

  lemma FinishMeans(s: Encoder, sent: seq<Event>, status: string, reason: string)
    requires Live(s) && Means(s, sent) && Follows(s, Read(s.frames), MentionsOf(sent)) && Places(s, sent)
    ensures ReadsBack(s.id, sent, status, reason, Read(Step(s, ResponseDone(status, reason)).frames))
  {
    hide Read, Live, Step, Follows, FinishReadBack, ResponseStatus, Tracks, SameMeaning, CallAt, TextOf, RefusalOf,
         ReasoningOf, UsageOf, Started, SignatureOf, SpokenOf, OpensWithRefusal, ClosesTo, IdsReturn, MentionsOf,
         IsFound, Listed, Concluded, Full, Places, ToolOrder;
    var closed, r := FinishFollows(s, status, reason, MentionsOf(sent));
    var r' := Read(Step(s, ResponseDone(status, reason)).frames);
    ToolsMentioned(s, sent);
    EndedMeaning(s, closed, r, sent, r', status, reason);
  }

  /** The meaning of the whole, given the reader when all was closed and at the end. */
  lemma EndedMeaning(s: Encoder, closed: Encoder, r: Reader, sent: seq<Event>, r': Reader, status: string, reason: string)
    requires Means(s, sent) && Places(s, sent) && Follows(closed, r, MentionsOf(sent)) && ReaderTracks(r) && Full(r)
    requires SameSpeech(s, closed) && Concluded(closed) && ClosesTo(s, closed)
    requires ReadsEnding(s, status, reason, r, r', IsFound(r, Listed(closed)))
    ensures SameMeaning(sent, r'.events) <==> IdsReturn(s.id, sent)
    ensures IdsReturn(s.id, sent) ==> UsageOf(r'.events) == s.usage
  {
    hide Follows, FinishReadBack, ResponseStatus, Tracks, SameMeaning, CallAt, TextOf, RefusalOf,
         ReasoningOf, UsageOf, Started, SignatureOf, SpokenOf, OpensWithRefusal, ClosesTo, MentionsOf, Means, SameSpeech,
         IsFound, Listed, Concluded, Full, Places, ToolOrder, BlankFound, PlaceTaken, EmptyReturn, LastSignature;
    ClosedMeaning(s, closed, r, sent);
    if EmptyReturn(s.id, sent) {
      FoundIff(s, closed, r, sent);
    }
    if IsFound(r, Listed(closed)) {
      TracksOnce(r);
      var done := r'.events[|r'.events| - 1];
      EndingMeans(r.events, s.usage, done.status, done.finishReason);
      if SameMeaning(sent, r.events) {
        MeaningKept(sent, r.events, r'.events);
      }
      if SameMeaning(sent, r'.events) {
        MeaningKept(sent, r'.events, r.events);
      }
    } else {
      MoreCalls(closed, r, sent, r'.events);
    }
  }

  lemma MoreCalls(closed: Encoder, r: Reader, sent: seq<Event>, read: seq<Event>)
    requires Follows(closed, r, MentionsOf(sent)) && ReaderTracks(r) && |ToolOrder(read)| > |ToolOrder(r.events)|
    ensures !SameMeaning(sent, read)
  {
    hide TextOf, RefusalOf, ReasoningOf, LastSignature, SignatureOf, SpokenOf, OpensWithRefusal, CallAt, Started, ToolOrder;
    OrderTold(r);
  }

  lemma ToolsMentioned(s: Encoder, sent: seq<Event>)
    requires ToolsMean(s, sent)
    ensures forall i :: i in s.tools <==> i in ToolOrder(sent)
    ensures s.tools.Keys != {} <==> ToolOrder(sent) != []
  {
    ToolOrderIsSeen(sent);
    assert forall i :: i in s.tools <==> i in ToolOrder(sent);
    if s.tools.Keys != {} {
      HasMember(s.tools.Keys);
      var i: int := AnyOf(s.tools.Keys);
      assert i in ToolOrder(sent);
    }
    if ToolOrder(sent) != [] {
      assert ToolOrder(sent)[0] in s.tools.Keys;
    }
  }

  lemma MeaningKept(sent: seq<Event>, events: seq<Event>, read: seq<Event>)
    requires SameMeaning(sent, events)
    requires TextOf(read) == TextOf(events) && RefusalOf(read) == RefusalOf(events) && ReasoningOf(read) == ReasoningOf(events)
    requires LastSignature(read) == LastSignature(events) && OnceEach(read)
    requires ToolOrder(read) == ToolOrder(events) && Started(read) == Started(events)
    requires forall j :: CallAt(read, j) == CallAt(events, j)
    ensures SameMeaning(sent, read)
  {
    hide CallAt, TextOf, RefusalOf, ReasoningOf, UsageOf, LastSignature, Started, ToolOrder, OnceEach, SpokenOf, SignatureOf, OpensWithRefusal;
  }

  /** All closed, the events read so far mean what was sent if calls without an id end
      with their item ids. */
  lemma ClosedMeaning(s: Encoder, closed: Encoder, r: Reader, sent: seq<Event>)
    requires Means(s, sent) && Follows(closed, r, MentionsOf(sent)) && ReaderTracks(r)
    requires SameSpeech(s, closed) && Concluded(closed) && ClosesTo(s, closed)
    ensures SameMeaning(sent, r.events) <==> EmptyReturn(s.id, sent)
    ensures UsageOf(r.events) == NO_USAGE
  {
    hide CallAt, TextOf, RefusalOf, ReasoningOf, UsageOf, LastSignature, Started, SpokenOf, SignatureOf, OpensWithRefusal,
         ToolOrder, FirstID, ToolItemID;
    ToolsMentioned(s, sent);
    OrderTold(r);
    TracksOnce(r);
    forall k: nat | k < |ToolOrder(sent)| ensures ReturnsAt(s.id, sent, r.events, k) {
      OneReturns(s, closed, r, sent, k);
    }
    MeaningIff(s.id, sent, r.events);
  }

  /** Call `k` comes back closed; as it was, unless it came without an id. */
  ghost predicate ReturnsAt(id: string, sent: seq<Event>, read: seq<Event>, k: nat)
    requires k < |ToolOrder(sent)|
  {
    k < |ToolOrder(read)| &&
    var i, j := ToolOrder(sent)[k], ToolOrder(read)[k];
    && j in Started(read) && CallAt(read, j).Closed?
    && (CallAt(read, j) == CallAt(sent, i).Close() <==>
          (FirstID(sent, i) == "" ==> IDOf(CallAt(sent, i)) == ToolItemID(id, i)))
  }

  lemma OneReturns(s: Encoder, closed: Encoder, r: Reader, sent: seq<Event>, k: nat)
    requires ToolsMean(s, sent) && Follows(closed, r, MentionsOf(sent)) && ReaderTracks(r)
    requires Concluded(closed) && ClosesTo(s, closed) && k < |ToolOrder(sent)|
    ensures ReturnsAt(s.id, sent, r.events, k)
  {
    hide Follows, Concluded, Started, FirstID, ToolItemID, ToolOrder, CallAt;
    ToolsMentioned(s, sent);
    var i := ToolOrder(sent)[k];
    assert i in s.tools;
    ClosedCalls(closed, r, sent, k);
    var call := CallOf(closed.tools[i], closed.output);
    assert call.Close() == call && call == CallAt(sent, i).Close();
    assert IDOf(CallAt(sent, i)) == call.id;
  }

  lemma MeaningIff(id: string, sent: seq<Event>, read: seq<Event>)
    requires TextOf(read) == (if OpensWithRefusal(sent) then "" else SpokenOf(sent))
    requires RefusalOf(read) == (if OpensWithRefusal(sent) then SpokenOf(sent) else "")
    requires ReasoningOf(read) == ReasoningOf(sent) && LastSignature(read) == SignatureOf(sent) && OnceEach(read)
    requires |ToolOrder(read)| == |ToolOrder(sent)| && forall k: nat | k < |ToolOrder(sent)| :: ReturnsAt(id, sent, read, k)
    ensures SameMeaning(sent, read) <==> EmptyReturn(id, sent)
  {
    hide CallAt, TextOf, RefusalOf, ReasoningOf, LastSignature, Started, SpokenOf, SignatureOf, OpensWithRefusal,
         ToolOrder, FirstID, ToolItemID, OnceEach;
    if SameMeaning(sent, read) {
      forall i | i in ToolOrder(sent) && FirstID(sent, i) == "" ensures IDOf(CallAt(sent, i)) == ToolItemID(id, i) {
        var k: nat :| k < |ToolOrder(sent)| && ToolOrder(sent)[k] == i;
        assert ReturnsAt(id, sent, read, k);
      }
    }
    if EmptyReturn(id, sent) {
      forall k | 0 <= k < |ToolOrder(sent)| ensures
        var i, j := ToolOrder(sent)[k], ToolOrder(read)[k];
        j in Started(read) && CallAt(read, j).Closed? && CallAt(read, j) == CallAt(sent, i).Close()
      {
        assert ReturnsAt(id, sent, read, k);
        assert ToolOrder(sent)[k] in ToolOrder(sent);
      }
    }
  }

  // ----- Which calls the reader finds -----

  lemma ItemIDInjective(id: string, i: int, k: int)
    requires ToolItemID(id, i) == ToolItemID(id, k)
    ensures i == k
  {
    assert ToolItemID(id, i)[|id + "_fc_"|..] == FormatInt(i);
    assert ToolItemID(id, k)[|id + "_fc_"|..] == FormatInt(k);
    FormatInjective(i, k);
  }

  /** What a tracked call is known by. */
  lemma KnownAs(closed: Encoder, r: Reader, sent: seq<Event>, i: int)
    requires CallsFollow(closed, r, MentionsOf(sent)) && i in closed.tools && i in ToolOrder(sent)
    ensures closed.tools[i].outputIndex in r.tools.byIndex
    ensures r.tools.byIndex[closed.tools[i].outputIndex].callID == FirstNonEmpty(FirstID(sent, i), ToolItemID(closed.id, i))
    ensures closed.tools[i].done && FirstID(sent, i) != "" ==>
              var call := CallOf(closed.tools[i], closed.output); call.Closed? && call.id == FirstID(sent, i)
  {
    hide CallAt, Started, ToolOrder, FirstID, ToolItemID, OrderFollows;
    CallKnown(closed, r, MentionsOf(sent), i);
    assert MentionsOf(sent).first[i] == FirstID(sent, i);
  }

  /** The tracker knows exactly the ids shown. */
  lemma KnownIffShown(closed: Encoder, r: Reader, sent: seq<Event>, id: string)
    requires CallsFollow(closed, r, MentionsOf(sent)) && ReaderTracks(r)
    requires forall i :: i in closed.tools <==> i in ToolOrder(sent)
    ensures id in KnownIDs(r.tools) <==>
            exists i :: i in ToolOrder(sent) && FirstNonEmpty(FirstID(sent, i), ToolItemID(closed.id, i)) == id
  {
    hide CallsFollow, ToolOrder, FirstID, ToolItemID, Tracks, CallItemsFollow;
    if id in KnownIDs(r.tools) {
      var j :| j in r.tools.byIndex && r.tools.byIndex[j].callID == id;
      var i := ToolAt(closed, r, MentionsOf(sent), j);
      KnownAs(closed, r, sent, i);
    }
    if i :| i in ToolOrder(sent) && FirstNonEmpty(FirstID(sent, i), ToolItemID(closed.id, i)) == id {
      KnownAs(closed, r, sent, i);
    }
  }

  lemma AllConcluded(s: Encoder, i: int)
    requires Concluded(s) && i in s.tools
    ensures s.tools[i].done
  {}

  /** A call is found under the id it is listed with, unless that id is one of spaces and
      its item id is nobody's. */
  lemma ListedFound(closed: Encoder, r: Reader, sent: seq<Event>, i: int)
    requires Follows(closed, r, MentionsOf(sent)) && ReaderTracks(r) && Concluded(closed) && EmptyReturn(closed.id, sent)
    requires (forall k :: k in closed.tools <==> k in ToolOrder(sent)) && i in closed.tools
    requires CallOf(closed.tools[i], closed.output).Closed?
    requires IDOf(CallAt(sent, i)) == CallOf(closed.tools[i], closed.output).id
    ensures closed.tools[i].outputIndex in closed.output
    ensures ListedID(closed.output[closed.tools[i].outputIndex]) in KnownIDs(r.tools) <==>
            (FirstID(sent, i) != "" && IsBlank(FirstID(sent, i)) ==> ItemIDGiven(closed.id, sent, i))
  {
    hide CallsFollow, ItemsFollow, SpeechFollows, Concluded, ToolOrder, FirstID, ToolItemID, Tracks, IsBlank, CallAt, KnownIDs, CallItemsFollow;
    var first, itemID := FirstID(sent, i), ToolItemID(closed.id, i);
    ListedAs(closed, r, MentionsOf(sent), i);
    KnownAs(closed, r, sent, i);
    assert closed.tools[i].done by { AllConcluded(closed, i); }
    ItemIDIsSolid(closed.id, i);
    KnownIffShown(closed, r, sent, ListedID(closed.output[closed.tools[i].outputIndex]));
    if first != "" && IsBlank(first) {
      if k :| k in ToolOrder(sent) && FirstNonEmpty(FirstID(sent, k), ToolItemID(closed.id, k)) == itemID {
        if FirstID(sent, k) == "" {
          ItemIDInjective(closed.id, k, i);
        }
      }
    }
  }

  /** All calls are found exactly when those with ids of spaces are, or the place after
      all calls is taken. */
  lemma FoundIff(s: Encoder, closed: Encoder, r: Reader, sent: seq<Event>)
    requires Means(s, sent) && Places(s, sent) && Follows(closed, r, MentionsOf(sent)) && ReaderTracks(r)
    requires Concluded(closed) && ClosesTo(s, closed) && EmptyReturn(s.id, sent)
    ensures IsFound(r, Listed(closed)) <==> BlankFound(s.id, sent) || PlaceTaken(sent)
  {
    hide Follows, Concluded, ToolOrder, FirstID, ToolItemID, Tracks, IsBlank, CallAt, KnownIDs, ItemIDGiven, PlaceOf, EmptyReturn, ListedID;
    ToolsMentioned(s, sent);
    forall i | i in closed.tools
      ensures closed.tools[i].outputIndex in closed.output
      ensures ListedID(closed.output[closed.tools[i].outputIndex]) in KnownIDs(r.tools) <==>
              (FirstID(sent, i) != "" && IsBlank(FirstID(sent, i)) ==> ItemIDGiven(s.id, sent, i))
    {
      SameID(s, closed, r, sent, i);
      ListedFound(closed, r, sent, i);
    }
    PlaceIff(s, closed, r, sent);
  }

  lemma SameID(s: Encoder, closed: Encoder, r: Reader, sent: seq<Event>, i: int)
    requires ToolsMean(s, sent) && Follows(closed, r, MentionsOf(sent)) && Concluded(closed) && ClosesTo(s, closed) && i in s.tools
    ensures CallOf(closed.tools[i], closed.output).Closed?
    ensures IDOf(CallAt(sent, i)) == CallOf(closed.tools[i], closed.output).id
  {
    hide ToolOrder, FirstID, ToolItemID, CallAt, Started, SpeechFollows, ItemsFollow;
    assert CallFollows(closed.tools[i], closed.output, r.tools.byIndex[closed.tools[i].outputIndex],
                       CallAt(r.events, closed.tools[i].outputIndex), MentionsOf(sent).first[i]);
    var call := CallOf(closed.tools[i], closed.output);
    assert call.Close() == CallAt(sent, i).Close();
  }

  lemma PlaceIff(s: Encoder, closed: Encoder, r: Reader, sent: seq<Event>)
    requires Places(s, sent) && Follows(closed, r, MentionsOf(sent)) && ReaderTracks(r) && ClosesTo(s, closed)
    requires forall i :: i in s.tools <==> i in ToolOrder(sent)
    ensures |r.tools.order| in r.tools.byIndex <==> PlaceTaken(sent)
  {
    hide ToolOrder, FirstID, ToolItemID, CallAt, Started, SpeechFollows, ItemsFollow, PlaceOf, CallFollows, CallItemsFollow, CallOf, Tracks;
    var n := |r.tools.order|;
    assert n == |ToolOrder(sent)|;
    if n in r.tools.byIndex {
      var i := ToolAt(closed, r, MentionsOf(sent), n);
      assert i in ToolOrder(sent) && PlaceOf(sent, i) == n;
    }
    if i :| i in ToolOrder(sent) && PlaceOf(sent, i) == |ToolOrder(sent)| {
      assert closed.tools[i].outputIndex == n;
    }
  }

  lemma TracksOnce(r: Reader)
    requires ReaderTracks(r)
    ensures OnceEach(r.events)
  {}

  /** The finish reason survives exactly when the terminal status can carry it: an
      incomplete response tells only length from content_filter, a completed one only
      whether there were calls. */
  lemma FinishReasonSurvives(status: string, reason: string, refusal: string, hasCalls: bool)
    ensures FinishReadBack(status, reason, refusal, hasCalls) == reason <==>
            if reason == "length" || reason == "content_filter"
            then status == "incomplete" || (status != "completed" && !(status == "" && refusal != ""))
            else status != "incomplete" && reason == if hasCalls then "tool_calls" else "stop"
  {
    assert "length" != "tool_calls" && "length" != "stop" && "content_filter" != "tool_calls" && "content_filter" != "stop" by {
      assert |"length"| == 6 && |"stop"| == 4 && |"tool_calls"| == 10 && |"content_filter"| == 14;
    }
    assert "completed" != "incomplete" by {
      assert |"completed"| == 9 && |"incomplete"| == 10;
    }
  }
}
