/** Two runs at the edge of the round trip. A call with the id of one space is read twice
    when it comes alone: the terminal frame lists it under its item id
    (internal/protocol/openai_responses.go:389), which the reader has not seen
    (internal/stream_convert.go:1184-1188). With words before it the same call stands at
    the place the reader gives the stranger, and comes back as it was. */
module ResponsesBlankID {
  import opened Canonical
  import opened ToolTracker
  import opened ResponsesFrames
  import opened ResponsesEncoderSpec
  import opened ResponsesGrammar
  import opened ResponsesMeaning
  import opened ResponsesReader
  import opened ResponsesItems
  import opened ResponsesIDs
  import opened ResponsesFollows
  import opened ResponsesRoundTrip

  lemma OnlyKey(keys: set<int>)
    requires keys == {0}
    ensures SortedKeys(keys) == [0]
  {
    var s := SortedKeys(keys);
    assert 0 in s;
    forall k | 0 <= k < |s| ensures s[k] == 0 {
      assert s[k] in s;
    }
  }

  lemma BlankStarted()
    ensures var started := WriteToolStart(Init("r", 0, "m"), 0, " ", "f", "");
            var tool := EncoderTool(" ", "f", "", "", ToolItemID("r", 0), 0, false);
            && Encode("r", 0, "m", [ToolStart(0, " ", "f", "")]) == started
            && started.tools == map[0 := tool] && started.tools.Keys == {0} && started.output == map[]
            && started.text == "" && !started.textOpen && !started.reasoningOpen && !started.finished && started.nextIndex == 1
            && started.frames == Emit(Init("r", 0, "m"), ItemAdded(0, CallItem(tool.itemID, "in_progress", " ", "f", ""))).frames
            && started.id == "r"
  {
    hide ToolItemID;
    EncodeSnoc("r", 0, "m", [], ToolStart(0, " ", "f", ""));
    assert [] + [ToolStart(0, " ", "f", "")] == [ToolStart(0, " ", "f", "")];
  }

  /** Closing the only call, open at place 0. */
  lemma OnlyCallCloses(s: Encoder, tool: EncoderTool) returns (all: Encoder, item: Item)
    requires s.tools == map[0 := tool] && tool.outputIndex == 0 && !tool.done && s.output == map[]
    requires !s.textOpen && !s.reasoningOpen && s.nextIndex == 1
    ensures item == CallItem(tool.itemID, "completed", tool.id, tool.name, tool.arguments)
    ensures all == CloseAll(s, "completed", [0]) && SortedOutput(all.output, all.nextIndex) == [item]
    ensures all.frames == Emit(Emit(s, ArgumentsDone(tool.itemID, 0, tool.name, tool.arguments)), ItemDone(0, item)).frames
  {
    item := CallItem(tool.itemID, "completed", tool.id, tool.name, tool.arguments);
    all := CloseTool(s, 0);
    assert CloseTools(s, [0]) == CloseTool(CloseTools(s, [0][..0]), [0][0]);
    assert SortedOutput(all.output, 1) == SortedOutput(all.output, 0) + [item];
  }

  /** The frames of a stream whose only call has the id " ". */
  lemma BlankIDFrames() returns (started: Encoder, all: Encoder, item: Item, resp: Response)
    ensures started == Encode("r", 0, "m", [ToolStart(0, " ", "f", "")])
    ensures var itemID := ToolItemID("r", 0);
            && item == CallItem(itemID, "completed", " ", "f", "")
            && started.frames == Emit(Init("r", 0, "m"), ItemAdded(0, CallItem(itemID, "in_progress", " ", "f", ""))).frames
            && all.frames == Emit(Emit(started, ArgumentsDone(itemID, 0, "f", "")), ItemDone(0, item)).frames
    ensures resp.output == [item] && resp.status == "completed"
    ensures Step(started, ResponseDone("", "stop")).frames == Emit(all, Completed(resp)).frames
  {
    hide ToolItemID, IsBlank, Encode, Init, WriteToolStart, CloseAll, Step, SortedOutput;
    BlankStarted();
    started := WriteToolStart(Init("r", 0, "m"), 0, " ", "f", "");
    OnlyKey(started.tools.Keys);
    FinishedFrames(started, "", "stop");
    all, item := OnlyCallCloses(started, started.tools[0]);
    resp := TerminalResponse(all, "completed", "stop");
  }

  /** A call the tracker does not know by its id is started anew, at the next free place. */
  lemma UnknownCallRead(r: Reader, item: Item, resp: Response)
    requires ReaderTracks(r) && r.status == Running && r.tools == Tracker(map[0 := ToolState(" ", "f", "", "", true)], [0])
    requires item.kind == FunctionCall && FirstNonBlank(item.callID, item.id) != "" && FirstNonBlank(item.callID, item.id) != " "
    requires resp.output == [item] && resp.status == "completed"
    ensures ReadTerminal(r, resp).tools.order == [0, 1] && ToolOrder(ReadTerminal(r, resp).events) == [0, 1]
  {
    hide Tracks, ReadCall, ContentOf, ReadCalls, DoneTools;
    var call := ToolCall(FirstNonBlank(item.callID, item.id), item.name, item.arguments);
    OneCall(resp.output, item, call);
    UnknownCall(r, call);
    ReadTerminalTracks(r, resp);
    assert ReadSpoken(r, ContentOf(resp.output)) == r;
    OneCallRead(r, call);
    DoneFirstKeepsOrder(ReadCall(r, call));
    OrderTold(ReadTerminal(r, resp));
  }

  lemma OrderTold(r: Reader)
    requires ReaderTracks(r)
    ensures r.tools.order == ToolOrder(r.events)
  {}

  lemma OneCall(output: seq<Item>, item: Item, call: ToolCall)
    requires output == [item] && item.kind == FunctionCall
    requires call == ToolCall(FirstNonBlank(item.callID, item.id), item.name, item.arguments)
    ensures ContentOf(output) == Content("", "", "", "", [call])
  {
    assert output[..0] == [];
    assert ContentOf(output) == ContentStep(ContentOf([]), item);
  }

  lemma OneCallRead(r: Reader, call: ToolCall)
    requires r.tools.Valid()
    ensures ReadCalls(r, [call]) == ReadCall(r, call)
  {
    assert [call][..0] == [];
    assert ReadCalls(r, []) == r;
  }

  lemma UnknownCall(r: Reader, call: ToolCall)
    requires r.tools == Tracker(map[0 := ToolState(" ", "f", "", "", true)], [0]) && call.id != " " && call.id != ""
    ensures ReadCall(r, call).tools.order == [0, 1]
  {
    assert IndexFrom(r.tools, call.id, 1) == None;
  }

  lemma DoneFirstKeepsOrder(r: Reader)
    requires r.tools.Valid()
    ensures DoneTools(r).tools.order == r.tools.order
  {}

  lemma BlankIDReads() returns (all: Encoder, item: Item, resp: Response)
    ensures var itemID := ToolItemID("r", 0); item == CallItem(itemID, "completed", " ", "f", "")
    ensures resp.output == [item] && resp.status == "completed"
    ensures Step(Encode("r", 0, "m", [ToolStart(0, " ", "f", "")]), ResponseDone("", "stop")).frames == Emit(all, Completed(resp)).frames
    ensures var r := Read(all.frames);
            r.status == Running && r.tools == Tracker(map[0 := ToolState(" ", "f", "", "", true)], [0])
  {
    hide Decimal, FormatInt, Emit, ReadFrame, Read, Encode, Step, ToolItemID;
    var started;
    started, all, item, resp := BlankIDFrames();
    var itemID := ToolItemID("r", 0);
    var r0 := Read(Init("r", 0, "m").frames);
    InitReads();
    ReadEmit(Init("r", 0, "m"), ItemAdded(0, CallItem(itemID, "in_progress", " ", "f", "")));
    StartReads(r0, 0, CallItem(itemID, "in_progress", " ", "f", ""));
    var r1 := Read(started.frames);
    ReadEmit(started, ArgumentsDone(itemID, 0, "f", ""));
    DoneReads(r1, 0, itemID, "f", "");
    var r2 := ReadFrame(r1, ArgumentsDone(itemID, 0, "f", ""));
    ReadEmit(Emit(started, ArgumentsDone(itemID, 0, "f", "")), ItemDone(0, item));
    DoneAgainReads(r2, 0, item);
  }

  lemma InitReads()
    ensures var r := Read(Init("r", 0, "m").frames); r.status == Running && r.tools == EMPTY
  {
    ReadEmit(Encoder("r", 0, "m", 0, 0, "", -1, false, false, "", "", -1, false, map[], map[], NO_USAGE, false, []),
             Created(Response("r", 0, "m", "in_progress", None, [], NO_USAGE)));
  }

  /** One call with the id " " goes in, two come back. */
  lemma BlankIDIsReadTwice()
    ensures var sent := [ToolStart(0, " ", "f", "")];
            var read := Read(Encode("r", 0, "m", sent + [ResponseDone("", "stop")]).frames).events;
            |ToolOrder(sent)| == 1 && ToolOrder(read) == [0, 1]
  {
    hide Decimal, FormatInt, Emit, Read, Step, ReadTerminal;
    var all, item, resp := BlankIDReads();
    EncodeSnoc("r", 0, "m", [ToolStart(0, " ", "f", "")], ResponseDone("", "stop"));
    ReadEnding(all, Completed(resp), resp);
    ReadTracks(all.frames);
    var r := Read(all.frames);
    assert IsBlank(" ");
    assert item.id[0] == 'r' && item.id[0] in item.id && |item.id| > 1;
    UnknownCallRead(r, item, resp);
  }

  /** Alone it does not return. */
  lemma BlankIDAlone(id: string)
    ensures !IdsReturn(id, [ToolStart(0, " ", "f", "")])
  {
    var sent := [ToolStart(0, " ", "f", "")];
    assert sent == [] + [sent[0]];
    Snoc([], sent[0]);
    SnocItems([], sent[0]);
    assert ToolOrder(sent) == [0] && FirstID(sent, 0) == " " && PlaceOf(sent, 0) == 0;
    ItemIDIsSolid(id, 0);
    assert IsBlank(" ");
  }

  lemma AfterTextReturns(id: string)
    ensures IdsReturn(id, [TextDelta(0, "x"), ToolStart(0, " ", "f", "")])
  {
    hide BlankFound, ToolItemID, IsBlank, ToolOrder, PlaceOf, FirstID, ItemsOpened, Thinking;
    var text, call := TextDelta(0, "x"), ToolStart(0, " ", "f", "");
    assert [text] == [] + [text] && [text, call] == [text] + [call];
    Snoc([], text);
    Snoc([text], call);
    SnocItems([], text);
    SnocItems([text], call);
    SnocCall([], text, 0);
    NothingYet();
    assert ToolOrder([text, call]) == [0] && PlaceOf([text, call], 0) == 1 && FirstID([text, call], 0) == " ";
    assert 0 in ToolOrder([text, call]);
  }

  lemma NothingYet()
    ensures ToolOrder([]) == [] && ItemsOpened([]) == 0 && !Thinking([]) && CallAt([], 0).Unseen? && SpokenOf([]) == ""
  {}

  /** With words before it, it does. */
  lemma BlankIDAfterText(id: string, created: int, model: string)
    ensures var sent := [TextDelta(0, "x"), ToolStart(0, " ", "f", "")];
            SameMeaning(sent, Read(Encode(id, created, model, sent + [ResponseDone("", "stop")]).frames).events)
  {
    hide SameMeaning, Read, Encode, FinishReadBack, ResponseStatus, OpensWithRefusal, IdsReturn, ToolOrder, UsageOf, SpokenOf;
    AfterTextReturns(id);
    ResponsesRoundTrips(id, created, model, [TextDelta(0, "x"), ToolStart(0, " ", "f", "")], "", "stop");
  }
}
