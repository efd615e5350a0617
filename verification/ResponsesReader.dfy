/** readResponsesStreamAsCanonical (internal/stream_convert.go:1035-1247): a Responses
    stream, frame by frame, to canonical events. An end of input or a scan error before
    a terminal frame shows as a reader that is still running. */
module ResponsesReader {
  import opened Canonical
  import opened ResponsesFrames
  import opened ToolTracker

  datatype Status = Running | Finished | Aborted

  datatype Reader = Reader(tools: Tracker, reasoningSeen: bool, textSeen: bool, refusalSeen: bool,
                           usage: Usage, status: Status, events: seq<Event>)

  const START := Reader(EMPTY, false, false, false, NO_USAGE, Running, [])

  function Say(r: Reader, e: Event): Reader {
    r.(events := r.events + [e])
  }

  function StartTool(r: Reader, index: int, callID: string, name: string): (r': Reader)
    requires r.tools.Valid()
    ensures r'.tools.Valid()
  {
    var s := Start(r.tools, index, callID, name, "");
    r.(tools := s.0, events := r.events + Opt(s.1))
  }

  function DeltaTool(r: Reader, index: int, callID: string, delta: string): (r': Reader)
    requires r.tools.Valid()
    ensures r'.tools.Valid()
  {
    var d := Delta(r.tools, index, callID, "", delta);
    r.(tools := d.0, events := r.events + [d.1])
  }

  function DoneTool(r: Reader, index: int, callID: string, name: string, arguments: string): (r': Reader)
    requires r.tools.Valid()
    ensures r'.tools.Valid()
  {
    var d := Done(r.tools, index, callID, name, arguments, "");
    r.(tools := d.0, events := r.events + Opt(d.1))
  }

  function DoneTools(r: Reader): (r': Reader)
    requires r.tools.Valid()
    ensures r'.tools.Valid()
  {
    var d := DoneAll(r.tools);
    r.(tools := d.0, events := r.events + d.1)
  }

  function ReadReasoningDone(r: Reader, index: int, item: Item): (r': Reader)
    requires r.tools.Valid()
    ensures r'.tools.Valid()
  {
    var text := Pieces(item.summary, SummaryPiece) + Pieces(item.content, ReasoningPiece);
    if !r.reasoningSeen then
      if text != "" || item.encrypted != "" then
        Say(r, ReasoningDelta(index, text, item.encrypted)).(reasoningSeen := true)
      else r
    else if item.encrypted != "" then Say(r, ReasoningDelta(index, "", item.encrypted))
    else r
  }

  /** One tool call of the terminal response. */
  function ReadCall(r: Reader, call: ToolCall): (r': Reader)
    requires r.tools.Valid()
    ensures r'.tools.Valid()
  {
    var index := match IndexForCallID(r.tools, call.id)
      case Some(known) => known
      case None => |r.tools.order|;
    DoneTool(StartTool(r, index, call.id, call.name), index, call.id, call.name, call.arguments)
  }

  function ReadCalls(r: Reader, calls: seq<ToolCall>): (r': Reader)
    requires r.tools.Valid()
    ensures r'.tools.Valid()
  {
    if calls == [] then r else ReadCall(ReadCalls(r, calls[..|calls| - 1]), calls[|calls| - 1])
  }

  function ReadSpoken(r: Reader, c: Content): (r': Reader)
    requires r.tools.Valid()
    ensures r'.tools.Valid()
  {
    var said := if c.text != "" && !r.textSeen then Say(r, TextDelta(0, c.text)).(textSeen := true) else r;
    if c.refusal != "" && !r.refusalSeen then Say(said, RefusalDelta(0, c.refusal)).(refusalSeen := true) else said
  }

  function ReadUsage(r: Reader, usage: Usage): (r': Reader)
    requires r.tools.Valid()
    ensures r'.tools.Valid()
  {
    var counted := r.(usage := usage);
    if usage.IsZero() then counted else Say(counted, UsageReport(usage))
  }

  function ReadTerminal(r: Reader, response: Response): (r': Reader)
    requires r.tools.Valid()
    ensures r'.tools.Valid() && r'.status != Running
  {
    match ToCanonical(response)
    case None => r.(status := Aborted)
    case Some(canonical) =>
      var closed := DoneTools(ReadCalls(ReadSpoken(r, canonical.content), canonical.content.calls));
      Say(ReadUsage(closed, canonical.usage), ResponseDone(canonical.status, canonical.finishReason)).(status := Finished)
  }

  function ReadItemAdded(r: Reader, index: int, item: Item, itemID: string): (r': Reader)
    requires r.tools.Valid()
    ensures r'.tools.Valid()
  {
    match item.kind
    case Message => Say(r, MessageStart(index, item.role))
    case FunctionCall => StartTool(r, index, FirstNonEmpty(FirstNonEmpty(item.callID, item.id), itemID), item.name)
    case _ => r
  }

  function ReadItemDone(r: Reader, index: int, item: Item, itemID: string): (r': Reader)
    requires r.tools.Valid()
    ensures r'.tools.Valid()
  {
    match item.kind
    case Reasoning => ReadReasoningDone(r, index, item)
    case FunctionCall =>
      DoneTool(r, index, FirstNonEmpty(FirstNonEmpty(item.callID, item.id), itemID), item.name, item.arguments)
    case _ => r
  }

  function ReadFrame(r: Reader, body: Body): (r': Reader)
    requires r.tools.Valid()
    ensures r'.tools.Valid()
  {
    if r.status != Running then r else
      match body
      case Created(response) => Say(r, ResponseStart(response.id, response.created, response.model))
      case OutputTextDelta(_, index, delta) => Say(r, TextDelta(index, delta)).(textSeen := true)
      case RefusalTextDelta(_, index, delta) => Say(r, RefusalDelta(index, delta)).(refusalSeen := true)
      case SummaryTextDelta(_, index, delta) => Say(r, ReasoningDelta(index, delta, "")).(reasoningSeen := true)
      case ReasoningTextDelta(_, index, delta) => Say(r, ReasoningDelta(index, delta, "")).(reasoningSeen := true)
      case ItemAdded(index, item, itemID) => ReadItemAdded(r, index, item, itemID)
      case ArgumentsDelta(itemID, index, delta) => DeltaTool(r, index, itemID, delta)
      case ArgumentsDone(itemID, index, name, arguments) => DoneTool(r, index, itemID, name, arguments)
      case ItemDone(index, item, itemID) => ReadItemDone(r, index, item, itemID)
      case Completed(response) => ReadTerminal(r, response)
      case Incomplete(response) => ReadTerminal(r, response)
      case Failed(_) => r.(status := Aborted)
      case ErrorFrame(code, message) => Say(r, StreamError(Some(ErrorData(code, message)))).(status := Aborted)
      case Malformed => r.(status := Aborted)
      case _ => r
  }

  function Read(frames: seq<Frame>): (r: Reader)
    ensures r.tools.Valid()
  {
    if frames == [] then START else ReadFrame(Read(frames[..|frames| - 1]), frames[|frames| - 1].body)
  }

  lemma ReadSnoc(frames: seq<Frame>, f: Frame)
    ensures Read(frames + [f]) == ReadFrame(Read(frames), f.body)
  {
    assert (frames + [f])[..|frames|] == frames;
  }

  /** Frames after the end are not read. */
  lemma {:induction false} ReadStops(frames: seq<Frame>, rest: seq<Frame>)
    requires Read(frames).status != Running
    ensures Read(frames + rest) == Read(frames)
  {
    hide Read, ReadFrame;
    if rest == [] {
      assert frames + rest == frames;
    } else {
      ReadStops(frames, rest[..|rest| - 1]);
      assert frames + rest == frames + rest[..|rest| - 1] + [rest[|rest| - 1]];
      ReadSnoc(frames + rest[..|rest| - 1], rest[|rest| - 1]);
      StoppedReads(Read(frames), rest[|rest| - 1].body);
    }
  }

  lemma StoppedReads(r: Reader, body: Body)
    requires r.tools.Valid() && r.status != Running
    ensures ReadFrame(r, body) == r
  {}

  lemma ReadNothing()
    ensures Read([]) == START
  {}

  /** Frame `k` taken alone; and all that is read, if it ends the stream. */
  lemma ReadAt(frames: seq<Frame>, k: nat)
    requires k < |frames|
    ensures var r := ReadFrame(Read(frames[..k]), frames[k].body);
            Read(frames[..k + 1]) == r && (r.status != Running ==> Read(frames) == r)
  {
    hide Read, ReadFrame;
    assert frames[..k + 1] == frames[..k] + [frames[k]];
    ReadSnoc(frames[..k], frames[k]);
    if Read(frames[..k + 1]).status != Running {
      assert frames == frames[..k + 1] + frames[k + 1..];
      ReadStops(frames[..k + 1], frames[k + 1..]);
    }
  }

  /** The reader itself: a loop over the frames, a tracker updated in place, and the
      events handed on. */
  method ReadStream(frames: seq<Frame>) returns (events: seq<Event>, usage: Usage, ok: bool)
    ensures events == Read(frames).events && usage == Read(frames).usage
    ensures ok <==> Read(frames).status == Finished
  {
    hide Read, ReadTerminal, ReadItemAdded, ReadItemDone, DeltaTool, DoneTool, Tracker.AllDone;
    ReadNothing();
    events, usage := [], NO_USAGE;
    var tools := new ToolCallTracker();
    var reasoningSeen, textSeen, refusalSeen := false, false, false;
    for k := 0 to |frames|
      invariant fresh(tools)
      invariant Reader(tools.View(), reasoningSeen, textSeen, refusalSeen, usage, Running, events) == Read(frames[..k])
    {
      ReadAt(frames, k);
      ghost var r := Read(frames[..k]);
      match frames[k].body {
        case Created(response) =>
          events := events + [ResponseStart(response.id, response.created, response.model)];
        case OutputTextDelta(_, index, delta) =>
          textSeen := true;
          events := events + [TextDelta(index, delta)];
        case RefusalTextDelta(_, index, delta) =>
          refusalSeen := true;
          events := events + [RefusalDelta(index, delta)];
        case SummaryTextDelta(_, index, delta) =>
          reasoningSeen := true;
          events := events + [ReasoningDelta(index, delta, "")];
        case ReasoningTextDelta(_, index, delta) =>
          reasoningSeen := true;
          events := events + [ReasoningDelta(index, delta, "")];
        case ItemAdded(index, item, itemID) =>
          events := ReadAdded(index, item, itemID, tools, events, r);
        case ArgumentsDelta(itemID, index, delta) =>
          events := ReadFragment(index, itemID, delta, tools, events, r);
        case ArgumentsDone(itemID, index, name, arguments) =>
          events := ReadArguments(index, itemID, name, arguments, tools, events, r);
        case ItemDone(index, item, itemID) =>
          events, reasoningSeen := ReadDone(index, item, itemID, tools, reasoningSeen, events, r);
        case Completed(response) =>
          events, usage, ok := ReadEnd(response, tools, textSeen, refusalSeen, usage, events, r);
          return;
        case Incomplete(response) =>
          events, usage, ok := ReadEnd(response, tools, textSeen, refusalSeen, usage, events, r);
          return;
        case Failed(_) =>
          return events, usage, false;
        case ErrorFrame(code, message) =>
          events := events + [StreamError(Some(ErrorData(code, message)))];
          return events, usage, false;
        case Malformed =>
          return events, usage, false;
        case _ =>
      }
    }
    assert frames[..|frames|] == frames;
    ok := false;
  }

  /** The response.function_call_arguments.delta branch of the reader. */
  method ReadFragment(index: int, itemID: string, delta: string, tools: ToolCallTracker, events: seq<Event>, ghost r: Reader)
    returns (events': seq<Event>)
    requires tools.View() == r.tools && r.tools.Valid() && r.events == events
    modifies tools
    ensures DeltaTool(r, index, itemID, delta) == r.(tools := tools.View(), events := events')
  {
    hide Delta;
    var e := tools.AddDelta(index, itemID, "", delta);
    events' := events + [e];
  }

  /** The response.function_call_arguments.done branch of the reader. */
  method ReadArguments(index: int, itemID: string, name: string, arguments: string, tools: ToolCallTracker,
                       events: seq<Event>, ghost r: Reader)
    returns (events': seq<Event>)
    requires tools.View() == r.tools && r.tools.Valid() && r.events == events
    modifies tools
    ensures DoneTool(r, index, itemID, name, arguments) == r.(tools := tools.View(), events := events')
  {
    hide Done;
    var e := tools.FinishCall(index, itemID, name, arguments, "");
    events' := events + Opt(e);
  }

  /** The response.output_item.added branch of the reader. */
  method ReadAdded(index: int, item: Item, itemID: string, tools: ToolCallTracker, events: seq<Event>, ghost r: Reader)
    returns (events': seq<Event>)
    requires tools.View() == r.tools && r.tools.Valid() && r.events == events
    modifies tools
    ensures var r' := ReadItemAdded(r, index, item, itemID);
            r' == r.(tools := tools.View(), events := events')
  {
    events' := events;
    if item.kind == Message {
      events' := events' + [MessageStart(index, item.role)];
    } else if item.kind == FunctionCall {
      var e := tools.StartCall(index, FirstNonEmpty(FirstNonEmpty(item.callID, item.id), itemID), item.name, "");
      events' := events' + Opt(e);
    }
  }

  /** The response.output_item.done branch of the reader. */
  method ReadDone(index: int, item: Item, itemID: string, tools: ToolCallTracker, reasoningSeen: bool,
                  events: seq<Event>, ghost r: Reader)
    returns (events': seq<Event>, reasoningSeen': bool)
    requires tools.View() == r.tools && r.tools.Valid() && r.events == events && r.reasoningSeen == reasoningSeen
    modifies tools
    ensures var r' := ReadItemDone(r, index, item, itemID);
            r' == r.(tools := tools.View(), events := events', reasoningSeen := reasoningSeen')
  {
    events', reasoningSeen' := events, reasoningSeen;
    if item.kind == Reasoning {
      var text := ConcatPieces(item.summary, SummaryPiece);
      var inner := ConcatPieces(item.content, ReasoningPiece);
      if !reasoningSeen {
        if text + inner != "" || item.encrypted != "" {
          events' := events' + [ReasoningDelta(index, text + inner, item.encrypted)];
          reasoningSeen' := true;
        }
      } else if item.encrypted != "" {
        events' := events' + [ReasoningDelta(index, "", item.encrypted)];
      }
    } else if item.kind == FunctionCall {
      var e := tools.FinishCall(index, FirstNonEmpty(FirstNonEmpty(item.callID, item.id), itemID),
                                item.name, item.arguments, "");
      events' := events' + Opt(e);
    }
  }

  /** The calls of the terminal response. */
  method ReadEndCalls(calls: seq<ToolCall>, tools: ToolCallTracker, events: seq<Event>, ghost said: Reader) returns (events': seq<Event>)
    requires tools.View() == said.tools && said.tools.Valid() && said.events == events
    modifies tools
    ensures tools.View() == ReadCalls(said, calls).tools && events' == ReadCalls(said, calls).events
  {
    hide Start, Done, IndexFrom;
    events' := events;
    for k := 0 to |calls|
      invariant tools.View() == ReadCalls(said, calls[..k]).tools
      invariant events' == ReadCalls(said, calls[..k]).events
    {
      assert calls[..k + 1][..k] == calls[..k];
      var call := calls[k];
      var known := tools.FindCallID(call.id);
      var index := if known.Some? then known.value else |tools.order|;
      var e := tools.StartCall(index, call.id, call.name, "");
      events' := events' + Opt(e);
      e := tools.FinishCall(index, call.id, call.name, call.arguments, "");
      events' := events' + Opt(e);
    }
    assert calls[..|calls|] == calls;
  }

  /** The terminal branch of the reader. */
  method ReadEnd(response: Response, tools: ToolCallTracker, textSeen: bool, refusalSeen: bool, usage: Usage,
                 events: seq<Event>, ghost r: Reader)
    returns (events': seq<Event>, usage': Usage, ok: bool)
    requires tools.View() == r.tools && r.tools.Valid() && r.events == events && r.usage == usage
    requires r.textSeen == textSeen && r.refusalSeen == refusalSeen && r.status == Running
    modifies tools
    ensures var r' := ReadTerminal(r, response);
            events' == r'.events && usage' == r'.usage && (ok <==> r'.status == Finished)
  {
    hide DoneAll, ToCanonical, ContentOf, Pieces, ReadCalls;
    events', usage' := events, usage;
    var canonical := ResponseToCanonical(response);
    if canonical.None? {
      return events', usage', false;
    }
    var c := canonical.value.content;
    if c.text != "" && !textSeen {
      events' := events' + [TextDelta(0, c.text)];
    }
    if c.refusal != "" && !refusalSeen {
      events' := events' + [RefusalDelta(0, c.refusal)];
    }
    events' := ReadEndCalls(c.calls, tools, events', ReadSpoken(r, c));
    var more := tools.FinishAll();
    events' := events' + more;
    usage' := canonical.value.usage;
    if !usage'.IsZero() {
      events' := events' + [UsageReport(usage')];
    }
    events' := events' + [ResponseDone(canonical.value.status, canonical.value.finishReason)];
    ok := true;
  }

  // ----- Exactly once -----

  ghost predicate ReaderTracks(r: Reader) {
    r.tools.Valid() && Tracks(r.tools, r.events)
  }

  lemma SayTracks(r: Reader, e: Event)
    requires ReaderTracks(r) && !e.IsTool()
    ensures ReaderTracks(Say(r, e))
  {
    TracksOther(r.tools, r.events, e);
  }

  lemma StartToolTracks(r: Reader, index: int, callID: string, name: string)
    requires ReaderTracks(r)
    ensures ReaderTracks(StartTool(r, index, callID, name)) && StartTool(r, index, callID, name).status == r.status
  {
    TracksStart(r.tools, r.events, index, callID, name, "");
  }

  lemma DoneToolTracks(r: Reader, index: int, callID: string, name: string, arguments: string)
    requires ReaderTracks(r)
    ensures ReaderTracks(DoneTool(r, index, callID, name, arguments)) && DoneTool(r, index, callID, name, arguments).status == r.status
  {
    TracksDone(r.tools, r.events, index, callID, name, arguments, "");
  }

  lemma {:induction false} ReadCallsTracks(r: Reader, calls: seq<ToolCall>)
    requires ReaderTracks(r)
    ensures ReaderTracks(ReadCalls(r, calls))
  {
    hide Tracks;
    if calls != [] {
      ReadCallsTracks(r, calls[..|calls| - 1]);
      ReadCallTracks(ReadCalls(r, calls[..|calls| - 1]), calls[|calls| - 1]);
    }
  }

  lemma ReadCallTracks(r: Reader, call: ToolCall)
    requires ReaderTracks(r)
    ensures ReaderTracks(ReadCall(r, call))
  {
    hide Tracks;
    var known := IndexForCallID(r.tools, call.id);
    var index := if known.Some? then known.value else |r.tools.order|;
    StartToolTracks(r, index, call.id, call.name);
    DoneToolTracks(StartTool(r, index, call.id, call.name), index, call.id, call.name, call.arguments);
  }

  lemma ReadSpokenTracks(r: Reader, c: Content)
    requires ReaderTracks(r)
    ensures ReaderTracks(ReadSpoken(r, c))
  {
    hide Tracks;
    SayTracks(r, TextDelta(0, c.text));
    var said := if c.text != "" && !r.textSeen then Say(r, TextDelta(0, c.text)).(textSeen := true) else r;
    SayTracks(said, RefusalDelta(0, c.refusal));
  }

  lemma DoneToolsTracks(r: Reader)
    requires ReaderTracks(r)
    ensures ReaderTracks(DoneTools(r)) && DoneTools(r).tools.AllDone()
  {
    TracksDoneAll(r.tools, r.events);
  }

  lemma DeltaToolTracks(r: Reader, index: int, callID: string, delta: string)
    requires ReaderTracks(r)
    ensures ReaderTracks(DeltaTool(r, index, callID, delta)) && DeltaTool(r, index, callID, delta).status == r.status
  {
    TracksDelta(r.tools, r.events, index, callID, "", delta);
  }

  lemma ReadTerminalTracks(r: Reader, response: Response)
    requires ReaderTracks(r)
    ensures ReaderTracks(ReadTerminal(r, response))
    ensures ReadTerminal(r, response).status == Finished ==> ReadTerminal(r, response).tools.AllDone()
  {
    hide Tracks, ContentOf, ReadCalls, ReadSpoken, DoneTools, FinishReasonOf;
    var canonical := ToCanonical(response);
    if canonical.Some? {
      var c := canonical.value.content;
      ReadSpokenTracks(r, c);
      ReadCallsTracks(ReadSpoken(r, c), c.calls);
      var called := ReadCalls(ReadSpoken(r, c), c.calls);
      DoneToolsTracks(called);
      var closed := DoneTools(called);
      var usage := canonical.value.usage;
      SayTracks(closed, UsageReport(usage));
      SayTracks(ReadUsage(closed, usage), ResponseDone(canonical.value.status, canonical.value.finishReason));
    }
  }

  lemma ItemAddedTracks(r: Reader, index: int, item: Item, itemID: string)
    requires ReaderTracks(r)
    ensures ReaderTracks(ReadItemAdded(r, index, item, itemID)) && ReadItemAdded(r, index, item, itemID).status == r.status
  {
    hide Tracks, StartTool;
    SayTracks(r, MessageStart(index, item.role));
    StartToolTracks(r, index, FirstNonEmpty(FirstNonEmpty(item.callID, item.id), itemID), item.name);
  }

  lemma ItemDoneTracks(r: Reader, index: int, item: Item, itemID: string)
    requires ReaderTracks(r)
    ensures ReaderTracks(ReadItemDone(r, index, item, itemID)) && ReadItemDone(r, index, item, itemID).status == r.status
  {
    hide Tracks, DoneTool, Pieces;
    var text := Pieces(item.summary, SummaryPiece) + Pieces(item.content, ReasoningPiece);
    SayTracks(r, ReasoningDelta(index, if r.reasoningSeen then "" else text, item.encrypted));
    DoneToolTracks(r, index, FirstNonEmpty(FirstNonEmpty(item.callID, item.id), itemID), item.name, item.arguments);
  }

  lemma ReadFrameTracks(r: Reader, body: Body)
    requires ReaderTracks(r) && (r.status == Finished ==> r.tools.AllDone())
    ensures ReaderTracks(ReadFrame(r, body))
    ensures ReadFrame(r, body).status == Finished ==> ReadFrame(r, body).tools.AllDone()
  {
    hide Tracks, Tracker.Valid, Tracker.AllDone, ReadTerminal, StartTool, DeltaTool, DoneTool, ReadItemAdded, ReadItemDone;
    if r.status == Running {
      match body
      case Created(response) => SayTracks(r, ResponseStart(response.id, response.created, response.model));
      case OutputTextDelta(_, index, delta) => SayTracks(r, TextDelta(index, delta));
      case RefusalTextDelta(_, index, delta) => SayTracks(r, RefusalDelta(index, delta));
      case SummaryTextDelta(_, index, delta) => SayTracks(r, ReasoningDelta(index, delta, ""));
      case ReasoningTextDelta(_, index, delta) => SayTracks(r, ReasoningDelta(index, delta, ""));
      case ItemAdded(index, item, itemID) => ItemAddedTracks(r, index, item, itemID);
      case ArgumentsDelta(itemID, index, delta) => DeltaToolTracks(r, index, itemID, delta);
      case ArgumentsDone(itemID, index, name, arguments) => DoneToolTracks(r, index, itemID, name, arguments);
      case ItemDone(index, item, itemID) => ItemDoneTracks(r, index, item, itemID);
      case Completed(response) => ReadTerminalTracks(r, response);
      case Incomplete(response) => ReadTerminalTracks(r, response);
      case ErrorFrame(code, message) => SayTracks(r, StreamError(Some(ErrorData(code, message))));
      case _ =>
    }
  }

  lemma {:induction false} ReadTracks(frames: seq<Frame>)
    ensures ReaderTracks(Read(frames))
    ensures Read(frames).status == Finished ==> Read(frames).tools.AllDone()
  {
    if frames == [] {
      TracksEmpty();
    } else {
      ReadTracks(frames[..|frames| - 1]);
      ReadFrameTracks(Read(frames[..|frames| - 1]), frames[|frames| - 1].body);
    }
  }

  /** Whatever the upstream sends: a Start, if any, is the first event of its index, no
      index is done twice, and after success every index mentioned is done once. */
  lemma ResponsesExactlyOnce(frames: seq<Frame>)
    ensures OnceEach(Read(frames).events)
    ensures Read(frames).status == Finished ==>
              forall i | i in ToolOrder(Read(frames).events) :: exists p :: IsOnlyDone(Read(frames).events, i, p)
  {
    ReadTracks(frames);
    var r := Read(frames);
    if r.status == Finished {
      AllDoneMeansExactlyOnce(r.tools, r.events);
    }
  }
}
