/** What every Anthropic stream becomes (internal/stream_convert.go:1249-1426), told from its
    frames alone: the words, the stop reason, each call with its fragments, and the usage,
    which message_start and message_delta report piece by piece. */
module AnthropicStream {
  import opened Canonical
  import opened ToolTracker
  import opened Gatherings
  import opened AnthropicFrames
  import opened AnthropicReader

  // ----- The usage -----

  /** The counts a frame reports. */
  function Report(f: Frame): Option<TokenUsage> {
    match f
    case MessageStarted(_, _, _, usage) => Some(usage)
    case MessageDelta(_, _, usage) => Some(usage)
    case _ => None
  }

  /** The last report of which `counts` holds. */
  function LastReport(frames: seq<Frame>, counts: TokenUsage -> bool): Option<TokenUsage> {
    if frames == [] then None else
      var report := Report(frames[|frames| - 1]);
      if report.Some? && counts(report.value) then report else LastReport(frames[..|frames| - 1], counts)
  }

  function Prompt(u: TokenUsage): int {
    u.input + u.cacheCreation + u.cacheRead
  }

  /** The input is that of the last report that counts any, cached or not; output, cached and
      thinking tokens are the last counts that are not zero. */
  function Counted(frames: seq<Frame>): Usage {
    var input := LastReport(frames, (u: TokenUsage) => u.input != 0 || u.cacheCreation != 0 || u.cacheRead != 0);
    var output := LastReport(frames, (u: TokenUsage) => u.output != 0);
    var cached := LastReport(frames, (u: TokenUsage) => u.cacheRead != 0);
    var thinking := LastReport(frames, (u: TokenUsage) => u.thinking != 0);
    var prompt := if input.Some? then Prompt(input.value) else 0;
    var completion := if output.Some? then output.value.output else 0;
    Usage(prompt, completion, prompt + completion,
          if cached.Some? then cached.value.cacheRead else 0,
          if thinking.Some? then thinking.value.thinking else 0)
  }

  lemma CountedNext(frames: seq<Frame>, f: Frame)
    ensures Report(f).None? ==> Counted(frames + [f]) == Counted(frames)
    ensures Report(f).Some? ==> Counted(frames + [f]) == MergeUsage(Counted(frames), Report(f).value)
  {
    assert (frames + [f])[..|frames|] == frames && (frames + [f])[|frames|] == f;
  }

  // ----- What the upstream says -----

  /** The frames after which nothing is read. */
  predicate Ends(f: Frame) {
    f.MessageStop? || f.ErrorFrame? || f.Malformed?
  }

  /** The frames up to the first that ends the stream, which is the last of them. */
  function Heeded(frames: seq<Frame>): seq<Frame> {
    if frames == [] then [] else
      var before := Heeded(frames[..|frames| - 1]);
      if before != [] && Ends(before[|before| - 1]) then before else before + [frames[|frames| - 1]]
  }

  /** The stop reason of the last message_delta. */
  function StopReason(frames: seq<Frame>): Option<string> {
    if frames == [] then None else
      var f := frames[|frames| - 1];
      if f.MessageDelta? then Some(f.stopReason) else StopReason(frames[..|frames| - 1])
  }

  function FinishFor(stop: string): string {
    if stop in {"end_turn", "stop_sequence", "pause_turn"} then "stop"
    else if stop in {"max_tokens", "model_context_window_exceeded"} then "length"
    else if stop == "tool_use" then "tool_calls"
    else if stop == "refusal" then "content_filter"
    else stop
  }

  function Refusal(f: Frame): string {
    if !f.MessageDelta? || f.stopReason != "refusal" then ""
    else if f.details.Some? && f.details.value.explanation != "" then f.details.value.explanation
    else if f.details.Some? && f.details.value.category != "" then f.details.value.category
    else "Anthropic refused the request"
  }

  /** One frame more; `counted` is the usage up to it and `stop` the stop reason. */
  function HearFrame(s: Said, f: Frame, counted: Usage, stop: Option<string>): Said {
    match f
    case MessageStarted(id, model, role, _) => s.(notices := s.notices + [ResponseStart(id, 0, model), MessageStart(0, role)])
    case BlockDelta(_, TextPart(text)) => s.(text := s.text + text)
    case BlockDelta(_, ThinkingPart(thinking)) => s.(reasoning := s.reasoning + thinking)
    case BlockDelta(_, SignaturePart(signature)) => s.(signature := s.signature + signature)
    case MessageDelta(_, _, _) =>
      s.(refusal := s.refusal + Refusal(f), usage := if counted == NO_USAGE then s.usage else counted)
    case MessageStop => if stop.None? then s else s.(notices := s.notices + [ResponseDone("", FinishFor(stop.value))])
    case ErrorFrame(kind, message) => s.(notices := s.notices + [StreamError(Some(ErrorData(kind, message)))])
    case _ => s
  }

  function Hear(frames: seq<Frame>): Said {
    if frames == [] then NOTHING_SAID else
      HearFrame(Hear(frames[..|frames| - 1]), frames[|frames| - 1], Counted(frames), StopReason(frames))
  }

  /** What a frame sends for tool index `i`: a start, a piece of the arguments, or the end of
      the block or of the message. The end of any block ends the call of its index. */
  function HearCallIn(g: Gathering, f: Frame, i: int): Gathering {
    match f
    case BlockStart(index, ToolUseBlock(id, name)) => if index == i then g.Mention(id, name, "") else g
    case BlockDelta(index, JsonPart(partial)) => if index == i then g.Mention("", "", "").Feed(partial) else g
    case BlockStop(index) => if index == i then g.Mention("", "", "").End("") else g
    case MessageDelta(_, _, _) => g.End("")
    case _ => g
  }

  function HearCall(frames: seq<Frame>, i: int): Gathering {
    if frames == [] then NotSeen else HearCallIn(HearCall(frames[..|frames| - 1], i), frames[|frames| - 1], i)
  }

  lemma HearNext(frames: seq<Frame>, f: Frame)
    ensures StopReason(frames + [f]) == if f.MessageDelta? then Some(f.stopReason) else StopReason(frames)
    ensures Hear(frames + [f]) == HearFrame(Hear(frames), f, Counted(frames + [f]), StopReason(frames + [f]))
    ensures forall i :: HearCall(frames + [f], i) == HearCallIn(HearCall(frames, i), f, i)
  {
    hide Counted, HearFrame, HearCallIn;
    assert (frames + [f])[..|frames|] == frames && (frames + [f])[|frames|] == f;
  }

  function StatusAfter(frames: seq<Frame>): Status {
    if frames == [] || !Ends(frames[|frames| - 1]) then Running
    else if frames[|frames| - 1].MessageStop? && StopReason(frames).Some? then Finished else Aborted
  }

  // ----- The reader follows -----

  ghost predicate Follows(r: Reader, frames: seq<Frame>) {
    && HoldsAll(r.tools, r.events, i => HearCall(frames, i)) && Says(r.events, Hear(frames))
    && r.usage == Counted(frames) && r.status == StatusAfter(frames)
    && (r.deltaSeen <==> StopReason(frames).Some?)
    && (r.deltaSeen ==> r.finishReason == FinishFor(StopReason(frames).value))
  }

  /** What was told, with what a frame adds. */
  ghost predicate Told(r: Reader, g: int -> Gathering, s: Said) {
    r.tools.Valid() && HoldsAll(r.tools, r.events, g) && Says(r.events, s)
  }

  lemma SayTold(r: Reader, g: int -> Gathering, s: Said, e: Event)
    requires Told(r, g, s) && !e.IsTool()
    ensures Told(Say(r, e), g, Saying(s, e))
  {
    hide HoldsAll, Says;
    OtherHolds(r.tools, r.events, e, g);
    SaysNext(r.events, e, s);
  }

  lemma StopAllTold(r: Reader, g: int -> Gathering, s: Said, g': int -> Gathering)
    requires Told(r, g, s) && forall i :: g'(i) == g(i).End("")
    ensures Told(StopAll(r), g', s)
  {
    hide HoldsAll, Says, DoneFirst;
    DoneAllHolds(r.tools, r.events, g, g');
    DoneFirstIsTools(r.tools, |r.tools.order|);
    SaysCalls(r.events, DoneAll(r.tools).1, s);
  }

  lemma FlagsTold(r: Reader, r': Reader, g: int -> Gathering, s: Said)
    requires Told(r, g, s) && r'.tools == r.tools && r'.events == r.events
    ensures Told(r', g, s)
  {}

  lemma SameTold(r: Reader, g: int -> Gathering, s: Said, g': int -> Gathering)
    requires Told(r, g, s) && forall i :: g'(i) == g(i)
    ensures Told(r, g', s)
  {
    hide Tracks, Says, Holds;
  }

  lemma ToolTold(r: Reader, g: int -> Gathering, s: Said, f: Frame, g': int -> Gathering)
    requires Told(r, g, s) && r.status == Running
    requires (f.BlockStart? && f.block.ToolUseBlock?) || (f.BlockDelta? && f.delta.JsonPart?) || f.BlockStop?
    requires forall i :: g'(i) ==
               if i != f.index then g(i)
               else match f
                    case BlockStart(_, ToolUseBlock(id, name)) => g(i).Mention(id, name, "")
                    case BlockDelta(_, JsonPart(partial)) => g(i).Mention("", "", "").Feed(partial)
                    case _ => g(i).Mention("", "", "").End("")
    ensures Told(ReadFrame(r, f), g', s)
  {
    hide HoldsAll, Says;
    match f {
      case BlockStart(index, ToolUseBlock(id, name)) =>
        StartHolds(r.tools, r.events, index, id, name, "", g, g');
        SaysCalls(r.events, Opt(Start(r.tools, index, id, name, "").1), s);
      case BlockDelta(index, JsonPart(partial)) =>
        DeltaHolds(r.tools, r.events, index, "", "", partial, g, g');
        SaysCalls(r.events, [Delta(r.tools, index, "", "", partial).1], s);
      case BlockStop(index) =>
        DoneHolds(r.tools, r.events, index, "", "", "", "", g, g');
        SaysCalls(r.events, Opt(Done(r.tools, index, "", "", "", "").1), s);
    }
  }

  lemma UsageTold(r: Reader, g: int -> Gathering, s: Said)
    requires Told(r, g, s)
    ensures Told(SayUsage(r), g, s.(usage := if r.usage == NO_USAGE then s.usage else r.usage))
  {
    hide HoldsAll, Says;
    if !r.usage.IsZero() {
      SayTold(r, g, s, UsageReport(r.usage));
    }
  }

  lemma EndTold(r: Reader, g: int -> Gathering, s: Said, f: Frame, g': int -> Gathering)
    requires Told(r, g, s) && f.MessageDelta? && forall i :: g'(i) == g(i).End("")
    ensures var counted := MergeUsage(r.usage, f.usage);
            Told(ReadMessageDelta(r, f.stopReason, f.details, f.usage), g',
                 s.(refusal := s.refusal + Refusal(f), usage := if counted == NO_USAGE then s.usage else counted))
  {
    hide Told, MergeUsage, StopToFinish, DoneAll;
    var seen := r.(deltaSeen := true, finishReason := StopToFinish(f.stopReason), usage := MergeUsage(r.usage, f.usage));
    FlagsTold(r, seen, g, s);
    StopAllTold(seen, g, s, g');
    UsageTold(StopAll(seen), g', s);
    var s' := s.(usage := if seen.usage == NO_USAGE then s.usage else seen.usage);
    assert s'.refusal + "" == s'.refusal;
    SayTold(SayUsage(StopAll(seen)), g', s', RefusalDelta(0, RefusalText(f.details)));
  }

  lemma FinishIs(stop: string)
    ensures StopToFinish(stop) == FinishFor(stop)
  {}

  /** What one frame adds to what was told. */
  lemma FrameTold(r: Reader, g: int -> Gathering, s: Said, f: Frame, counted: Usage, stop: Option<string>, g': int -> Gathering)
    requires r.tools.Valid() && Told(r, g, s) && r.status == Running && forall i :: g'(i) == HearCallIn(g(i), f, i)
    requires counted == (if Report(f).Some? then MergeUsage(r.usage, Report(f).value) else r.usage)
    requires f.MessageStop? ==> (r.deltaSeen <==> stop.Some?) && (r.deltaSeen ==> r.finishReason == FinishFor(stop.value))
    ensures Told(ReadFrame(r, f), g', HearFrame(s, f, counted, stop))
  {
    hide Told, StopToFinish, MergeUsage, FinishFor, Refusal, ReadDelta, ReadMessageDelta;
    match f {
      case MessageStarted(id, model, role, _) =>
        SameTold(r, g, s, g');
        var start, message := ResponseStart(id, 0, model), MessageStart(0, role);
        FlagsTold(r, r.(usage := counted), g', s);
        SayTold(r.(usage := counted), g', s, start);
        SayTold(Say(r.(usage := counted), start), g', Saying(s, start), message);
        assert s.notices + [start] + [message] == s.notices + [start, message];
      case BlockDelta(_, part) =>
        if part.JsonPart? {
          ToolTold(r, g, s, f, g');
        } else {
          SameTold(r, g, s, g');
          WordTold(r, g', s, f);
        }
      case BlockStart(_, block) =>
        if block.ToolUseBlock? {
          ToolTold(r, g, s, f, g');
        } else {
          SameTold(r, g, s, g');
        }
      case BlockStop(_) => ToolTold(r, g, s, f, g');
      case MessageDelta(_, _, _) => EndTold(r, g, s, f, g');
      case MessageStop =>
        SameTold(r, g, s, g');
        SayTold(r, g', s, ResponseDone("", r.finishReason));
        if r.deltaSeen {
          FlagsTold(Say(r, ResponseDone("", r.finishReason)), ReadFrame(r, f), g', Saying(s, ResponseDone("", r.finishReason)));
        } else {
          FlagsTold(r, ReadFrame(r, f), g', s);
        }
      case ErrorFrame(kind, message) =>
        SameTold(r, g, s, g');
        var e := StreamError(Some(ErrorData(kind, message)));
        SayTold(r, g', s, e);
        FlagsTold(Say(r, e), ReadFrame(r, f), g', Saying(s, e));
      case Malformed =>
        SameTold(r, g, s, g');
        FlagsTold(r, ReadFrame(r, f), g', s);
      case OtherFrame => SameTold(r, g, s, g');
    }
  }

  /** One frame of a stream that has not ended. */
  lemma FrameFollows(r: Reader, frames: seq<Frame>, f: Frame)
    requires r.tools.Valid() && Follows(r, frames) && r.status == Running
    ensures Follows(ReadFrame(r, f), frames + [f])
  {
    hide HoldsAll, Says, Counted, StopToFinish, MergeUsage, FinishFor, Refusal, Hear, HearCall, StopReason, HearFrame, HearCallIn;
    var more := frames + [f];
    CountedNext(frames, f);
    HearNext(frames, f);
    var g, g' := i => HearCall(frames, i), i => HearCall(more, i);
    FrameTold(r, g, Hear(frames), f, Counted(more), StopReason(more), g');
    FlagsFollow(r, frames, f);
  }

  lemma FlagsFollow(r: Reader, frames: seq<Frame>, f: Frame)
    requires r.tools.Valid() && Follows(r, frames) && r.status == Running
    ensures var r', more := ReadFrame(r, f), frames + [f];
            && r'.usage == Counted(more) && r'.status == StatusAfter(more)
            && (r'.deltaSeen <==> StopReason(more).Some?)
            && (r'.deltaSeen ==> r'.finishReason == FinishFor(StopReason(more).value))
  {
    hide HoldsAll, Says, Counted, StopToFinish, MergeUsage, FinishFor, Hear, HearCall, StopReason, DoneAll, Start, Done, Delta;
    CountedNext(frames, f);
    HearNext(frames, f);
    if f.MessageDelta? {
      FinishIs(f.stopReason);
    }
  }

  lemma WordTold(r: Reader, g: int -> Gathering, s: Said, f: Frame)
    requires Told(r, g, s) && f.BlockDelta? && !f.delta.JsonPart?
    ensures Told(ReadDelta(r, f.index, f.delta), g, HearFrame(s, f, NO_USAGE, None))
  {
    hide Told;
    assert s.reasoning + "" == s.reasoning && s.signature + "" == s.signature;
    match f.delta
    case TextPart(text) => SayTold(r, g, s, TextDelta(f.index, text));
    case ThinkingPart(thinking) => SayTold(r, g, s, ReasoningDelta(f.index, thinking, ""));
    case SignaturePart(signature) => SayTold(r, g, s, ReasoningDelta(f.index, "", signature));
    case _ =>
  }

  // ----- The whole stream -----

  /** What is read is what is heeded, and the reader follows it. */
  lemma {:induction false} ReadFollows(frames: seq<Frame>)
    ensures Read(frames) == Read(Heeded(frames)) && Follows(Read(frames), Heeded(frames))
  {
    hide Follows, ReadFrame;
    if frames == [] {
      StartFollows();
    } else {
      var before, f := Heeded(frames[..|frames| - 1]), frames[|frames| - 1];
      ReadFollows(frames[..|frames| - 1]);
      var r := Read(before);
      RunsUnlessEnded(r, before);
      if r.status == Running {
        FrameFollows(r, before, f);
        ReadSnoc(before, f);
      } else {
        StoppedReads(r, f);
      }
    }
  }

  lemma RunsUnlessEnded(r: Reader, frames: seq<Frame>)
    requires Follows(r, frames)
    ensures r.status == Running <==> frames == [] || !Ends(frames[|frames| - 1])
  {}

  lemma StoppedReads(r: Reader, f: Frame)
    requires r.tools.Valid() && r.status != Running
    ensures ReadFrame(r, f) == r
  {}

  lemma StartFollows()
    ensures Follows(START, [])
  {
    TracksEmpty();
  }

  /** Every Anthropic stream, whatever it contains, is told as it was heard, up to the frame
      that ends it: the words piece for piece, the refusal, the usage its reports count, the
      finish its last stop reason stands for; and unless reading is broken off, every index
      mentioned is done exactly once, with the id and name of its block and the arguments
      received for it before its end. */
  lemma AnthropicTold(frames: seq<Frame>)
    ensures var heeded := Heeded(frames);
            var r, events, s := Read(frames), Close(Read(frames)).events, Hear(heeded);
            && r.status == StatusAfter(heeded) && r.usage == Counted(heeded)
            && Says(events, if r.status == Running && r.usage != NO_USAGE then s.(usage := r.usage) else s)
            && (r.status != Aborted ==>
                  forall i :: var g := HearCall(heeded, i).End("");
                    if g.NotSeen? then CallAt(events, i).Unseen? else IsDone(events, i, g))
  {
    hide Read, StopAll, HoldsAll, Says, CallAt, HearCall, Hear, Heeded, IsDone;
    ReadFollows(frames);
    var heeded, r := Heeded(frames), Read(frames);
    var g, s := i => HearCall(heeded, i), Hear(heeded);
    assert Told(r, g, s);
    if r.status != Aborted {
      var g' := i => HearCall(heeded, i).End("");
      StopAllTold(r, g, s, g');
      StopAllKeeps(r);
      if r.status == Running {
        UsageTold(StopAll(r), g', s);
      }
      forall i ensures var d := HearCall(heeded, i).End("");
                       if d.NotSeen? then CallAt(Close(r).events, i).Unseen? else IsDone(Close(r).events, i, d)
      {
        DoneTold(Close(r).tools, Close(r).events, i, g');
        assert g'(i) == HearCall(heeded, i).End("");
      }
    }
  }

  lemma StopAllKeeps(r: Reader)
    requires r.tools.Valid()
    ensures StopAll(r).usage == r.usage && StopAll(r).status == r.status
  {}
}
