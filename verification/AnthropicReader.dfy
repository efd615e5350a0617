/** readAnthropicStreamAsCanonical (internal/stream_convert.go:1249-1426). */
module AnthropicReader {
  import opened Canonical
  import opened AnthropicFrames
  import opened ToolTracker

  datatype Status = Running | Finished | Aborted

  datatype Reader = Reader(tools: Tracker, usage: Usage, deltaSeen: bool, finishReason: string,
                           status: Status, events: seq<Event>)

  const START := Reader(EMPTY, NO_USAGE, false, "", Running, [])

  /** mergeAnthropicStreamUsage. */
  function MergeUsage(u: Usage, next: TokenUsage): Usage {
    var prompt := if next.input != 0 || next.cacheCreation != 0 || next.cacheRead != 0
                  then next.input + next.cacheCreation + next.cacheRead else u.prompt;
    var completion := if next.output != 0 then next.output else u.completion;
    Usage(prompt, completion, prompt + completion,
          if next.cacheRead != 0 then next.cacheRead else u.cached,
          if next.thinking != 0 then next.thinking else u.reasoning)
  }

  function Say(r: Reader, e: Event): Reader {
    r.(events := r.events + [e])
  }

  function SayUsage(r: Reader): Reader {
    if r.usage.IsZero() then r else Say(r, UsageReport(r.usage))
  }

  function StartTool(r: Reader, index: int, id: string, name: string): (r': Reader)
    requires r.tools.Valid()
    ensures r'.tools.Valid()
  {
    var s := Start(r.tools, index, id, name, "");
    r.(tools := s.0, events := r.events + Opt(s.1))
  }

  function FeedTool(r: Reader, index: int, partial: string): (r': Reader)
    requires r.tools.Valid()
    ensures r'.tools.Valid()
  {
    var d := Delta(r.tools, index, "", "", partial);
    r.(tools := d.0, events := r.events + [d.1])
  }

  function StopBlock(r: Reader, index: int): (r': Reader)
    requires r.tools.Valid()
    ensures r'.tools.Valid()
  {
    var d := Done(r.tools, index, "", "", "", "");
    r.(tools := d.0, events := r.events + Opt(d.1))
  }

  function StopAll(r: Reader): (r': Reader)
    requires r.tools.Valid()
    ensures r'.tools.Valid()
  {
    var d := DoneAll(r.tools);
    r.(tools := d.0, events := r.events + d.1)
  }

  function FirstOf(a: string, b: string, c: string): string {
    FirstNonEmpty(FirstNonEmpty(a, b), c)
  }

  function RefusalText(details: Option<StopDetails>): string {
    match details
    case None => "Anthropic refused the request"
    case Some(d) => FirstOf(d.explanation, d.category, "Anthropic refused the request")
  }

  function ReadDelta(r: Reader, index: int, delta: BlockPart): (r': Reader)
    requires r.tools.Valid()
    ensures r'.tools.Valid()
  {
    match delta
    case TextPart(text) => Say(r, TextDelta(index, text))
    case ThinkingPart(thinking) => Say(r, ReasoningDelta(index, thinking, ""))
    case SignaturePart(signature) => Say(r, ReasoningDelta(index, "", signature))
    case JsonPart(partial) => FeedTool(r, index, partial)
    case OtherPart => r
  }

  function ReadMessageDelta(r: Reader, stopReason: string, details: Option<StopDetails>, usage: TokenUsage): (r': Reader)
    requires r.tools.Valid()
    ensures r'.tools.Valid()
  {
    var seen := r.(deltaSeen := true, finishReason := StopToFinish(stopReason), usage := MergeUsage(r.usage, usage));
    var counted := SayUsage(StopAll(seen));
    if stopReason == "refusal" then Say(counted, RefusalDelta(0, RefusalText(details))) else counted
  }

  function ReadFrame(r: Reader, f: Frame): (r': Reader)
    requires r.tools.Valid()
    ensures r'.tools.Valid()
  {
    if r.status != Running then r else
      match f
      case MessageStarted(id, model, role, usage) =>
        Say(Say(r.(usage := MergeUsage(r.usage, usage)), ResponseStart(id, 0, model)), MessageStart(0, role))
      case BlockStart(index, block) => if block.ToolUseBlock? then StartTool(r, index, block.id, block.name) else r
      case BlockDelta(index, delta) => ReadDelta(r, index, delta)
      case BlockStop(index) => StopBlock(r, index)
      case MessageDelta(stopReason, details, usage) => ReadMessageDelta(r, stopReason, details, usage)
      case MessageStop =>
        if r.deltaSeen then Say(r, ResponseDone("", r.finishReason)).(status := Finished) else r.(status := Aborted)
      case ErrorFrame(kind, message) => Say(r, StreamError(Some(ErrorData(kind, message)))).(status := Aborted)
      case Malformed => r.(status := Aborted)
      case OtherFrame => r
  }

  function Read(frames: seq<Frame>): (r: Reader)
    ensures r.tools.Valid()
  {
    if frames == [] then START else ReadFrame(Read(frames[..|frames| - 1]), frames[|frames| - 1])
  }

  /** What follows the loop: the calls still open are done, after message_stop too; and the
      usage is told once more if there was no message_stop. An aborted reader has returned. */
  function Close(r: Reader): (r': Reader)
    requires r.tools.Valid()
    ensures r'.tools.Valid()
  {
    if r.status == Aborted then r else
      var closed := StopAll(r);
      if r.status == Finished then closed else SayUsage(closed)
  }

  lemma ReadSnoc(frames: seq<Frame>, f: Frame)
    ensures Read(frames + [f]) == ReadFrame(Read(frames), f)
  {
    assert (frames + [f])[..|frames|] == frames;
  }

  lemma StoppedReads(r: Reader, f: Frame)
    requires r.tools.Valid() && r.status != Running
    ensures ReadFrame(r, f) == r
  {}

  lemma {:induction false} ReadStops(frames: seq<Frame>, rest: seq<Frame>)
    requires Read(frames).status != Running
    ensures Read(frames + rest) == Read(frames)
  {
    hide Read, ReadFrame;
    if rest == [] {
      assert frames + rest == frames;
    } else {
      ReadStops(frames, rest[..|rest| - 1]);
      assert frames + rest == frames + rest[..|rest| - 1] + [rest[|rest| - 1]];
      ReadSnoc(frames + rest[..|rest| - 1], rest[|rest| - 1]);
      StoppedReads(Read(frames), rest[|rest| - 1]);
    }
  }

  lemma ReadAt(frames: seq<Frame>, k: nat)
    requires k < |frames|
    ensures var r := ReadFrame(Read(frames[..k]), frames[k]);
            Read(frames[..k + 1]) == r && (r.status != Running ==> Read(frames) == r)
  {
    hide Read, ReadFrame;
    assert frames[..k + 1] == frames[..k] + [frames[k]];
    ReadSnoc(frames[..k], frames[k]);
    if Read(frames[..k + 1]).status != Running {
      assert frames == frames[..k + 1] + frames[k + 1..];
      ReadStops(frames[..k + 1], frames[k + 1..]);
    }
  }

  lemma ReadNothing()
    ensures Read([]) == START
  {}

  /** The message_delta branch of the reader. */
  method ReadMessageEnd(tools: ToolCallTracker, stopReason: string, details: Option<StopDetails>, next: TokenUsage,
                        usage: Usage, events: seq<Event>, ghost r: Reader)
    returns (usage': Usage, events': seq<Event>)
    requires tools.View() == r.tools && r.tools.Valid() && r.usage == usage && r.events == events
    modifies tools
    ensures ReadMessageDelta(r, stopReason, details, next) ==
            r.(tools := tools.View(), usage := usage', events := events', deltaSeen := true, finishReason := StopToFinish(stopReason))
  {
    usage' := MergeUsage(usage, next);
    var more := tools.FinishAll();
    events' := events + more;
    if !usage'.IsZero() {
      events' := events' + [UsageReport(usage')];
    }
    if stopReason == "refusal" {
      events' := events' + [RefusalDelta(0, RefusalText(details))];
    }
  }

  /** The content_block_delta branch of the reader. */
  method ReadBlockDelta(tools: ToolCallTracker, index: int, delta: BlockPart, events: seq<Event>, ghost r: Reader)
    returns (events': seq<Event>)
    requires tools.View() == r.tools && r.tools.Valid() && r.events == events
    modifies tools
    ensures ReadDelta(r, index, delta) == r.(tools := tools.View(), events := events')
  {
    match delta {
      case TextPart(text) => events' := events + [TextDelta(index, text)];
      case ThinkingPart(thinking) => events' := events + [ReasoningDelta(index, thinking, "")];
      case SignaturePart(signature) => events' := events + [ReasoningDelta(index, "", signature)];
      case JsonPart(partial) =>
        var e := tools.AddDelta(index, "", "", partial);
        events' := events + [e];
      case OtherPart => events' := events;
    }
  }

  method ReadStream(frames: seq<Frame>) returns (events: seq<Event>, usage: Usage, ok: bool)
    ensures events == Close(Read(frames)).events && usage == Read(frames).usage
    ensures ok <==> Read(frames).status == Finished
  {
    hide Read, ReadDelta, ReadMessageDelta, Start, Done, DoneAll, MergeUsage;
    ReadNothing();
    events, usage := [], NO_USAGE;
    var tools := new ToolCallTracker();
    var deltaSeen, done, finishReason := false, false, "";
    var k := 0;
    while k < |frames| && !done
      invariant 0 <= k <= |frames| && fresh(tools) && tools.View().Valid()
      invariant !done ==> Reader(tools.View(), usage, deltaSeen, finishReason, Running, events) == Read(frames[..k])
      invariant done ==> Reader(tools.View(), usage, deltaSeen, finishReason, Finished, events) == Read(frames)
      decreases |frames| - k, !done
    {
      ReadAt(frames, k);
      ghost var r := Read(frames[..k]);
      match frames[k] {
        case MessageStarted(id, model, role, next) =>
          usage := MergeUsage(usage, next);
          events := events + [ResponseStart(id, 0, model)] + [MessageStart(0, role)];
        case BlockStart(index, block) =>
          if block.ToolUseBlock? {
            var e := tools.StartCall(index, block.id, block.name, "");
            events := events + Opt(e);
          }
        case BlockDelta(index, delta) => events := ReadBlockDelta(tools, index, delta, events, r);
        case BlockStop(index) =>
          var e := tools.FinishCall(index, "", "", "", "");
          events := events + Opt(e);
        case MessageDelta(stopReason, details, next) =>
          deltaSeen, finishReason := true, StopToFinish(stopReason);
          usage, events := ReadMessageEnd(tools, stopReason, details, next, usage, events, r);
        case MessageStop =>
          if !deltaSeen {
            return events, usage, false;
          }
          events := events + [ResponseDone("", finishReason)];
          done := true;
        case ErrorFrame(kind, message) =>
          events := events + [StreamError(Some(ErrorData(kind, message)))];
          return events, usage, false;
        case Malformed => return events, usage, false;
        case OtherFrame =>
      }
      k := k + 1;
    }
    assert frames[..|frames|] == frames;
    var more := tools.FinishAll();
    events := events + more;
    if !done && !usage.IsZero() {
      events := events + [UsageReport(usage)];
    }
    ok := done;
  }

  // ----- Exactly once -----

  ghost predicate ReaderTracks(r: Reader) {
    r.tools.Valid() && Tracks(r.tools, r.events)
  }

  lemma SayTracks(r: Reader, e: Event)
    requires ReaderTracks(r) && !e.IsTool()
    ensures ReaderTracks(Say(r, e))
  {
    TracksOther(r.tools, r.events, e);
  }

  lemma StopAllTracks(r: Reader)
    requires ReaderTracks(r)
    ensures ReaderTracks(StopAll(r)) && StopAll(r).tools.AllDone()
  {
    TracksDoneAll(r.tools, r.events);
  }

  lemma ReadMessageDeltaTracks(r: Reader, stopReason: string, details: Option<StopDetails>, usage: TokenUsage)
    requires ReaderTracks(r)
    ensures ReaderTracks(ReadMessageDelta(r, stopReason, details, usage))
  {
    hide Tracks;
    var seen := r.(deltaSeen := true, finishReason := StopToFinish(stopReason), usage := MergeUsage(r.usage, usage));
    StopAllTracks(seen);
    SayTracks(StopAll(seen), UsageReport(seen.usage));
    SayTracks(SayUsage(StopAll(seen)), RefusalDelta(0, RefusalText(details)));
  }

  lemma ReadDeltaTracks(r: Reader, index: int, delta: BlockPart)
    requires ReaderTracks(r)
    ensures ReaderTracks(ReadDelta(r, index, delta))
  {
    hide Tracks;
    match delta
    case TextPart(text) => SayTracks(r, TextDelta(index, text));
    case ThinkingPart(thinking) => SayTracks(r, ReasoningDelta(index, thinking, ""));
    case SignaturePart(signature) => SayTracks(r, ReasoningDelta(index, "", signature));
    case JsonPart(partial) => TracksDelta(r.tools, r.events, index, "", "", partial);
    case OtherPart =>
  }

  lemma ReadFrameTracks(r: Reader, f: Frame)
    requires ReaderTracks(r)
    ensures ReaderTracks(ReadFrame(r, f))
  {
    hide Tracks, ReadMessageDelta, ReadDelta;
    if r.status == Running {
      match f
      case MessageStarted(id, model, role, usage) =>
        var counted := r.(usage := MergeUsage(r.usage, usage));
        SayTracks(counted, ResponseStart(id, 0, model));
        SayTracks(Say(counted, ResponseStart(id, 0, model)), MessageStart(0, role));
      case BlockStart(index, block) =>
        if block.ToolUseBlock? {
          TracksStart(r.tools, r.events, index, block.id, block.name, "");
        }
      case BlockDelta(index, delta) => ReadDeltaTracks(r, index, delta);
      case BlockStop(index) => TracksDone(r.tools, r.events, index, "", "", "", "");
      case MessageDelta(stopReason, details, usage) => ReadMessageDeltaTracks(r, stopReason, details, usage);
      case MessageStop => SayTracks(r, ResponseDone("", r.finishReason));
      case ErrorFrame(kind, message) => SayTracks(r, StreamError(Some(ErrorData(kind, message))));
      case _ =>
    }
  }

  lemma {:induction false} ReadTracks(frames: seq<Frame>)
    ensures ReaderTracks(Read(frames))
  {
    hide Tracks;
    if frames == [] {
      TracksEmpty();
    } else {
      ReadTracks(frames[..|frames| - 1]);
      ReadFrameTracks(Read(frames[..|frames| - 1]), frames[|frames| - 1]);
    }
  }

  lemma TracksOnce(r: Reader)
    requires ReaderTracks(r)
    ensures OnceEach(r.events)
  {}

  /** Whatever the upstream sends: a Start, if any, is the first event of its index, no
      index is done twice, and unless the reader aborts every index mentioned is done once. */
  lemma AnthropicExactlyOnce(frames: seq<Frame>)
    ensures var events := Close(Read(frames)).events;
            && OnceEach(events)
            && (Read(frames).status != Aborted ==> forall i | i in ToolOrder(events) :: exists p :: IsOnlyDone(events, i, p))
  {
    hide Read, Tracks, StopAll, OnceEach, IsOnlyDone, ToolOrder;
    ReadTracks(frames);
    var r := Read(frames);
    TracksOnce(r);
    if r.status != Aborted {
      StopAllTracks(r);
      SayTracks(StopAll(r), UsageReport(StopAll(r).usage));
      TracksOnce(Close(r));
      AllDoneMeansExactlyOnce(Close(r).tools, Close(r).events);
    }
  }
}
